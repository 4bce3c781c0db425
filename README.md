# Rental price quotation — a Dafny model

This project models the pricing core of a vehicle-rental website's booking
form (`logica.js`). It covers:

- the weekend test and the two-by-two daily rate table: vans ("carrinha") or any
  other category, on weekend days or weekdays;
- the inclusive list of rental days;
- the quotation: the itemised base total, the two-tier corporate discount
  (10 % under three days, 20 % from three days on) and the 30-euro one-way
  fee, which applies when the trimmed pickup and return locations are both
  set and differ;
- the Fisher–Yates partial shuffle that picks four vehicles of the fleet to show;
- the checks the form's submit handler runs before asking for a quotation.

Representation:

- A date is a day number, with day 0 = Thursday 1 January 1970. Its weekday is
  `(day + 4) % 7`, numbered as JavaScript's `getDay` numbers weekdays (Sunday 0, Saturday 6).
- Money is whole euro cents, so a corporate discount is exact and no rounding is needed.
- The random index of each shuffle step is a parameter: `draws[i]`, in `0..i`.

Modules (one file each):

- `Calendar` (`calendar.dfy`): weekdays, weekends, the day span and `EnumerateDates`.
- `Rates` (`rates.dfy`): `DailyRate`.
- `Text` (`text.dfy`): ECMAScript `String.prototype.trim`.
- `Pricing` (`pricing.dfy`): the quotation, as a function `QuoteOf` and as the method `CalculatePrice`.
- `Shuffle` (`shuffle.dfy`): `PickRandomFour`.
- `BookingForm` (`booking_form.dfy`): the default category, date validation and fleet choice.
- `LocalClock` (`local_clock.dfy`): the day loop as written, on millisecond instants, for the finding below.
- `Scenarios` (`scenarios.dfy`): worked quotations.

Two points where the model follows the code rather than a tidier design:

- The code compares the category with `'carrinha'` and charges every other
  string the car rates. It does not use an enumeration {Car, Van}.
- The code leaves the rounding of the discount and the total to
  floating-point `Math.round`. With cent amounts every value is exact, so this
  model has no rounding step.

## Model

| member | source | states |
|---|---|---|
| Calendar.Weekday | logica.js:34-36 | the weekday of a day is one of the seven values 0..6 |
| Calendar.IsWeekend | logica.js:34-37 | a day is a weekend day when its weekday is Sunday (0) or Saturday (6); WeekendIsSaturdayAndSunday, IsWeekendPeriodic and FirstWeekOf1970 state its meaning |
| Calendar.WeekdayNext | logica.js:34-36 | consecutive days have consecutive weekdays, modulo 7 |
| Calendar.IsWeekendPeriodic | logica.js:34-37 | being a weekend day repeats every 7 days, forwards and backwards |
| Calendar.WeekendIsSaturdayAndSunday | logica.js:34-37 | a day is a weekend day exactly when it is a Saturday or a Sunday, and not one exactly when its weekday is Monday..Friday; a Saturday is followed and a Sunday preceded by a weekend day |
| Calendar.FirstWeekOf1970 | logica.js:34-37 | anchors the day numbering to the real calendar: 3 and 4 January 1970 are the weekend, the other five days of that week are not |
| Calendar.Span | logica.js:47-57 | the intended list of rental days: every day it lists lies between pickup and return; SpanMembers and SpanAscending show it lists each such day once, in order |
| Calendar.SpanMembers | logica.js:47-57 | a day is in the span exactly when it lies between the bounds, and it sits at its offset from the start |
| Calendar.SpanAscending | logica.js:47-57 | the span's days are consecutive and strictly ascending |
| Calendar.SpanSnoc | logica.js:52-55 | extending the return day by one appends exactly that day |
| Calendar.EnumerateDates | logica.js:47-57 | the loop returns end - start + 1 days starting at start and ending at end, day i being start + i (one day when the dates are equal, none when start > end) |
| Rates.DailyRate | logica.js:39-45 | every rate is positive: between 6 and 20 euros and a whole number of euros |
| Rates.DailyRateTable | logica.js:41-44 | "carrinha" costs 20/12 euros (weekend/weekday), every other category 15/6 euros |
| Rates.RateDependsOnDayKind | logica.js:40-44 | two days of the same kind (weekend or not) cost the same |
| Rates.RateOrdering | logica.js:41-44 | a weekend day costs more than a weekday, and a van more than any other category |
| Rates.DailyRateWithinCategory | logica.js:41-44 | each category's rate lies between its weekday and weekend rates |
| Text.TrimStartShape | logica.js:80 | trimming the start keeps a suffix that does not start with white space and removes only white space |
| Text.TrimEndShape | logica.js:80 | trimming the end keeps a prefix that does not end with white space and removes only white space |
| Text.TrimIsCore | logica.js:80 | trim keeps one contiguous piece with no white space at either end and removes only white space around it |
| Text.TrimBlank | logica.js:80 | a location trims to the empty string exactly when it is all white space |
| Text.TrimPadded | logica.js:80 | white space added around a string does not change its trimmed form |
| Text.TrimIdempotent | logica.js:80 | trimming twice is trimming once |
| Text.Trim | logica.js:80 | `trim()`: the result is never longer than the string; TrimIsCore, TrimBlank, TrimPadded and TrimIdempotent state what it keeps and removes |
| Pricing.BaseTotal | logica.js:65-69 | the base total of n days lies between 6n and 20n euros and is a whole number of euros |
| Pricing.BreakdownSumsToBase | logica.js:67-71 | the values of the breakdown add up to the base total |
| Pricing.BaseTotalExtend | logica.js:64-69 | one more day adds exactly that day's rate to the base, so the base never decreases |
| Pricing.WeekBaseTotal | logica.js:64-69 | any seven consecutive days cost two weekend rates and five weekday rates |
| Pricing.DiscountPercent | logica.js:74-77 | the rate is 0 exactly when the tariff is not corporate, and never above 20 %; DiscountTiers gives the tiers |
| Pricing.Discount | logica.js:78 | no discount at a 0 % rate; DiscountExact and DiscountByTier show it is exactly that share of the base |
| Pricing.DiscountTiers | logica.js:74-77 | no discount without the corporate tariff; with it 10 % below 3 days and 20 % from 3 days on (3 days gets 20 %); the rate never falls for a longer rental |
| Pricing.DiscountExact | logica.js:78 | the discount is exactly base times rate, with nothing lost to rounding, and never exceeds the base |
| Pricing.OneWayFeeGate | logica.js:80 | the fee is 30 euros exactly when a different return is asked for, neither location is blank and the trimmed locations differ, and 0 when any one of these fails |
| Pricing.OneWayFeeSymmetricAndPadded | logica.js:80 | swapping the two locations, or padding either with white space, leaves the fee unchanged |
| Pricing.OneWayFee | logica.js:80 | the fee is either 0 or 30 euros, and 0 when no different return was asked for; OneWayFeeGate gives the exact condition |
| Pricing.QuoteOf | logica.js:63-84 | the quotation as a function of the request: one breakdown line per counted day, a rate of at most 20 % and a fee of at most 30 euros; QuoteShape and QuoteMonotone state the rest, and CalculatePrice is proved equal to it |
| Pricing.QuoteShape | logica.js:63-83 | a quotation has one line per day in calendar order; the lines add up to the base total; the discount is exactly its rate of the base; total = base - discount + fee, so total >= fee >= 0 |
| Pricing.QuoteMonotone | logica.js:63-83 | keeping the vehicle one more day never lowers the base or the total, even across the 10 % to 20 % tier change |
| Pricing.AccumulateRates | logica.js:65-71 | the forEach loop leaves the base total and the breakdown of the listed days, and the breakdown adds up to the base |
| Pricing.CalculatePrice | logica.js:63-84 | for a validated request the result is the quotation of the request: daysCount = return - pickup + 1, the breakdown gives each day's rate in order and adds up to the base, discount * 100 = base * rate, total = base - discount + fee >= fee |
| Shuffle.Swap | logica.js:91 | a swap exchanges the two positions and leaves every other position alone |
| Shuffle.SwapPermutes | logica.js:91 | a swap is a permutation: the multiset of elements is unchanged |
| Shuffle.SwapsFrom | logica.js:89-92 | the loop's swaps from a position down to 1 keep the length; ShuffledPermutes shows they keep the multiset |
| Shuffle.Shuffled | logica.js:88-92 | the shuffle of the copied list has its length; ShuffledPermutes shows it is a permutation, and ShuffleInPlace is proved to compute it |
| Shuffle.ShuffledPermutes | logica.js:89-92 | the whole sequence of swaps keeps the length and the multiset of elements |
| Shuffle.PrefixSubMultiset | logica.js:93 | the first k elements are a sub-multiset of the list |
| Shuffle.DistinctSelection | logica.js:86-94 | from a fleet without repeated vehicles the selection repeats none |
| Shuffle.ShuffleInPlace | logica.js:89-92 | the in-place loop leaves the array holding the shuffle of its old contents, and every swap keeps it a permutation of them |
| Shuffle.PickRandomFour | logica.js:86-94 | the result is the first min(4, n) elements of the shuffled copy, drawn from arr without exceeding arr's multiplicities; arr is not modified (no modifies clause) |
| LocalClock.AsWrittenWithoutClockChange | logica.js:47-57 | in a zone without a clock change, the fixed 24-hour step yields exactly the calendar days from start to end |
| LocalClock.EnumerateDatesAsWritten | logica.js:47-57 | the loop as written: 24-hour steps of instants from local midnight of the pickup to local midnight of the return, each read as its local day; the three lemmas beside it show where it agrees with Calendar.Span and where it does not |
| LocalClock.SpringForwardDropsLastDay | logica.js:52-54 | where the clocks move forward, a three-day rental is listed as two days |
| LocalClock.FallBackRepeatsADay | logica.js:52-54 | where the clocks move back, a day is listed twice and the last day is lost |
| BookingForm.CategoryOrDefault | logica.js:286 | the category passed on is never empty: it is the field's value whenever that is set, and "carro" when the field is empty |
| BookingForm.AcceptRequest | logica.js:286-294 | a request is passed on exactly when both dates are valid and the return is not earlier than the pickup, and such a request meets the quotation's precondition |
| BookingForm.FleetOf | logica.js:300 | `VEHICLES[category] \|\| VEHICLES.carro`: the vans for "carrinha", the cars for every other category; FleetMatchesRates ties it to the rates charged |
| BookingForm.FleetMatchesRates | logica.js:300 | the van fleet is shown exactly when the van rates are charged |
| Scenarios.OneWeekdayCar | logica.js:63-83 | one weekday with a car: 6 euros in total |
| Scenarios.CorporateWeekendCar | logica.js:63-83 | a corporate car from Friday to Sunday: base 36 euros, 20 % discount of 7.20 euros, total 28.80 euros |
| Scenarios.CorporateOneWayCar | logica.js:63-83 | a corporate car for Monday and Tuesday returned elsewhere: 40.80 euros; returned at the same place written with spaces around it: 10.80 euros |
| Scenarios.SaturdayVan | logica.js:63-83 | a van for one Saturday: 20 euros |

## Findings

| source | as written | input that shows it | evidently intended | confidence | as-written member | corrected member |
|---|---|---|---|---|---|---|
| logica.js:52-54 | the loop steps local midnight by a fixed 24 hours (`MS_PER_DAY`, logica.js:6) and stops once the instant is after local midnight of the return day | a day on which the clocks move forward lies between pickup and return: after it the loop sits at 01:00, so the return day is never listed; where the clocks move back, one day is listed twice | one entry for every calendar day from pickup to return, inclusive (the comment on line 49 asks for local date boundaries) | not executed; high | LocalClock.SpringForwardDropsLastDay | Calendar.EnumerateDates |

Line items, rates and the discount tier follow from that list. So, as
written, a rental that spans a clock change is priced for the wrong days.
The quotation in this model uses `Calendar.EnumerateDates`, which steps whole
calendar days. `LocalClock.EnumerateDatesAsWritten` models the code's loop.
`LocalClock.AsWrittenWithoutClockChange` shows that the two agree when no
clock change happens.

## Left out

- User interface code is not modelled: the hamburger menu, the vehicle-type
  buttons, the location and about tabs, `renderResults` and the rest of the
  submit handler. They are DOM event wiring and class toggling, with no
  pricing logic.
- `FleetCarousel` is not modelled: its scroll clamping works on pixel sizes
  read from the page and on smooth-scroll side effects.
- `formatDate` is not modelled: it calls the locale-dependent
  `toLocaleDateString`. A breakdown line keeps its day and its weekend tag.
  The formatted label text is not part of the model.
- `Math.random` is not modelled: each shuffle step takes its index from
  `draws`, so the model says nothing about how the indices are distributed.
- JavaScript `Date` is not modelled in the quotation: there, dates are calendar
  day numbers. Parsing of the form's date fields is also out: a field that
  does not parse is `None`.
- `BookingForm.AcceptRequest`: it compares the two fields' local times as
  (day, minute) pairs, where the code compares the instants `new Date(...)`
  makes of them. The two orders differ only in the hour skipped when the
  clocks move forward: a local time in that gap is read with the offset from
  before the change. In Lisbon on that day, a pickup at 02:15 (read as 01:15
  UTC) and a return at 01:30 (01:30 UTC) are accepted by the code and
  rejected by the model. In the hour repeated when the clocks move back the
  code reads each local time as one instant, the earlier one, so there the
  orders agree.
- Floating-point arithmetic is not modelled, and with it `Math.round(x * 100) / 100`.
  Every amount is computed exactly in cents instead, which is the value the
  source's rounding to two decimals aims at.
- The `VEHICLES` catalogue data is not modelled. Only its fallback rule is,
  as `BookingForm.FleetOf`. `PickRandomFour` works for any element type.
