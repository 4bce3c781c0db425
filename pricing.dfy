/** The price quotation: the itemised daily rates of a rental, the tiered
    corporate discount and the one-way drop-off fee. Amounts are in euro
    cents, so every amount the quotation computes is exact. */
module Pricing {
  import opened Calendar
  import opened Rates
  import opened Text

  /** The surcharge for returning the vehicle somewhere else: 30 euros. */
  const OneWayFeeAmount: nat := 3000

  /** Corporate rentals of fewer days than this get the lower discount tier. */
  const LongRentalDays: nat := 3
  const ShortCorporatePercent: nat := 10
  const LongCorporatePercent: nat := 20

  /** What the booking form passes to the quotation. The two dates are
      calendar days; the time of day plays no part in the price. */
  datatype Request = Request(
    category: string,
    pickupDay: Day,
    returnDay: Day,
    corporate: bool,
    pickupLocation: string,
    returnLocation: string,
    differentReturn: bool)

  /** What the booking form guarantees before it asks for a quotation: the
      return is not before the pickup, and the category is set (an unset one
      has already been replaced by "carro"). */
  predicate ValidRequest(req: Request) {
    req.pickupDay <= req.returnDay && req.category != ""
  }

  /** One line of the itemised breakdown: the day, whether it is labelled as
      a weekend day, and the rate charged for it. The display label itself
      (the locale-formatted date) is not modelled. */
  datatype LineItem = LineItem(day: Day, weekend: bool, value: nat)

  /** The result of one quotation. `discountPercent` is the discount rate in
      percent (0, 10 or 20). */
  datatype Quote = Quote(
    daysCount: nat,
    base: nat,
    discountPercent: nat,
    discount: nat,
    oneWayFee: nat,
    total: int,
    breakdown: seq<LineItem>)

  /** The breakdown line of day `d`: the day, its weekend tag and its rate. */
  function ItemFor(category: string, d: Day): LineItem {
    LineItem(d, IsWeekend(d), DailyRate(category, d))
  }

  /** The sum of the daily rates of `days`, accumulated in order. */
  function BaseTotal(category: string, days: seq<Day>): (r: nat)
    ensures 600 * |days| <= r <= 2000 * |days|
    ensures r % 100 == 0
  {
    if days == [] then 0
    else BaseTotal(category, days[..|days| - 1]) + DailyRate(category, days[|days| - 1])
  }

  /** The itemised breakdown of `days`: one line per day, in the same order. */
  function Breakdown(category: string, days: seq<Day>): seq<LineItem> {
    seq(|days|, i requires 0 <= i < |days| => ItemFor(category, days[i]))
  }

  /** The sum of the values shown in a breakdown. */
  function SumValues(items: seq<LineItem>): nat {
    if items == [] then 0 else SumValues(items[..|items| - 1]) + items[|items| - 1].value
  }

  /** The discount rate, in percent, for a rental of `daysCount` days. */
  function DiscountPercent(corporate: bool, daysCount: nat): (r: nat)
    ensures r == 0 <==> !corporate
    ensures r <= LongCorporatePercent
  {
    if !corporate then 0
    else if daysCount < LongRentalDays then ShortCorporatePercent
    else LongCorporatePercent
  }

  /** `percent` percent of `base`. */
  function Discount(base: nat, percent: nat): (r: nat)
    ensures percent == 0 ==> r == 0
  {
    base * percent / 100
  }

  /** The drop-off fee: charged only when a different return location was
      asked for and both locations, trimmed, are non-blank and differ. */
  function OneWayFee(differentReturn: bool, pickupLocation: string, returnLocation: string): (r: nat)
    ensures r == 0 || r == OneWayFeeAmount
    ensures !differentReturn ==> r == 0
  {
    var from := Trim(pickupLocation);
    var to := Trim(returnLocation);
    if differentReturn && from != "" && to != "" && from != to then OneWayFeeAmount else 0
  }

  /** The quotation of a request, as a function of the request. */
  function QuoteOf(req: Request): (q: Quote)
    ensures |q.breakdown| == q.daysCount
    ensures q.discountPercent <= LongCorporatePercent && q.oneWayFee <= OneWayFeeAmount
  {
    var days := Span(req.pickupDay, req.returnDay);
    var base := BaseTotal(req.category, days);
    var percent := DiscountPercent(req.corporate, |days|);
    var discount := Discount(base, percent);
    var fee := OneWayFee(req.differentReturn, req.pickupLocation, req.returnLocation);
    Quote(|days|, base, percent, discount, fee, base - discount + fee, Breakdown(req.category, days))
  }

  /** The breakdown adds up to the base total. */
  lemma {:induction false} BreakdownSumsToBase(category: string, days: seq<Day>)
    ensures SumValues(Breakdown(category, days)) == BaseTotal(category, days)
    decreases |days|
  {
    if days != [] {
      var init := days[..|days| - 1];
      assert Breakdown(category, days)[..|days| - 1] == Breakdown(category, init);
      BreakdownSumsToBase(category, init);
    }
  }

  /** A rental one day longer costs its base total plus that day's rate, so
      the base total never decreases as the span grows. */
  lemma BaseTotalExtend(category: string, start: Day, end: Day)
    requires start <= end + 1
    ensures BaseTotal(category, Span(start, end + 1)) == BaseTotal(category, Span(start, end)) + DailyRate(category, end + 1)
    ensures BaseTotal(category, Span(start, end + 1)) >= BaseTotal(category, Span(start, end))
  {
    SpanSnoc(start, end);
    var longer := Span(start, end + 1);
    assert longer[..|longer| - 1] == Span(start, end);
  }

  /** Any seven consecutive days hold one weekend: a week costs two
      weekend rates and five weekday rates, whatever day it starts on. */
  lemma WeekBaseTotal(category: string, start: Day)
    ensures BaseTotal(category, Span(start, start + 6)) == 2 * CategoryMaxRate(category) + 5 * CategoryMinRate(category)
  {
    WeekSum(category, start);
    WeekRates(category, start);
  }

  lemma WeekSum(category: string, start: Day)
    ensures BaseTotal(category, Span(start, start + 6)) ==
      DailyRate(category, start) + DailyRate(category, start + 1) + DailyRate(category, start + 2)
      + DailyRate(category, start + 3) + DailyRate(category, start + 4) + DailyRate(category, start + 5)
      + DailyRate(category, start + 6)
  {
    assert Span(start, start - 1) == [];
    BaseTotalExtend(category, start, start - 1);
    BaseTotalExtend(category, start, start);
    BaseTotalExtend(category, start, start + 1);
    BaseTotalExtend(category, start, start + 2);
    BaseTotalExtend(category, start, start + 3);
    BaseTotalExtend(category, start, start + 4);
    BaseTotalExtend(category, start, start + 5);
  }

  lemma WeekRates(category: string, start: Day)
    ensures DailyRate(category, start) + DailyRate(category, start + 1) + DailyRate(category, start + 2)
      + DailyRate(category, start + 3) + DailyRate(category, start + 4) + DailyRate(category, start + 5)
      + DailyRate(category, start + 6) == 2 * CategoryMaxRate(category) + 5 * CategoryMinRate(category)
  {
    var w := Weekday(start);
    var hi, lo := CategoryMaxRate(category), CategoryMinRate(category);
    var r := seq(7, i => DailyRate(category, start + i));
    forall i | 0 <= i < 7
      ensures r[i] == if (w + i) % 7 == 0 || (w + i) % 7 == 6 then hi else lo
    {
      assert r[i] == DailyRate(category, start + i);
      assert Weekday(start + i) == (w + i) % 7;
    }
    assert r[0] + r[1] + r[2] + r[3] + r[4] + r[5] + r[6] == 2 * hi + 5 * lo by {
      if w == 0 {} else if w == 1 {} else if w == 2 {} else if w == 3 {}
      else if w == 4 {} else if w == 5 {} else {}
    }
  }

  /** The discount tiers: none without the corporate tariff; with it, 10 %
      below three days and 20 % from three days on. The rate never falls as
      the rental gets longer. */
  lemma DiscountTiers(corporate: bool, n: nat, m: nat)
    ensures !corporate ==> DiscountPercent(corporate, n) == 0
    ensures corporate && n < 3 ==> DiscountPercent(corporate, n) == 10
    ensures corporate && n >= 3 ==> DiscountPercent(corporate, n) == 20
    ensures n <= m ==> DiscountPercent(corporate, n) <= DiscountPercent(corporate, m)
  {
  }

  /** On a base total in whole euros, the discount is exact to the cent
      (no rounding takes place), and it never exceeds the base total. */
  lemma DiscountExact(base: nat, corporate: bool, n: nat)
    requires base % 100 == 0
    ensures Discount(base, DiscountPercent(corporate, n)) * 100 == base * DiscountPercent(corporate, n)
    ensures Discount(base, DiscountPercent(corporate, n)) <= base
  {
  }

  /** The one-way fee is 30 euros exactly when all three conditions hold
      (a different return asked for, neither location blank, the trimmed
      locations differ) and nothing otherwise; a location is blank when it
      is all white space. */
  lemma OneWayFeeGate(differentReturn: bool, pickupLocation: string, returnLocation: string)
    ensures OneWayFee(differentReturn, pickupLocation, returnLocation) == OneWayFeeAmount <==>
      differentReturn && !AllWhiteSpace(pickupLocation) && !AllWhiteSpace(returnLocation)
      && Trim(pickupLocation) != Trim(returnLocation)
    ensures OneWayFee(differentReturn, pickupLocation, returnLocation) == 0 <==>
      !differentReturn || AllWhiteSpace(pickupLocation) || AllWhiteSpace(returnLocation)
      || Trim(pickupLocation) == Trim(returnLocation)
  {
    TrimBlank(pickupLocation);
    TrimBlank(returnLocation);
  }

  /** The fee does not depend on which location is which, nor on white
      space around either of them. */
  lemma OneWayFeeSymmetricAndPadded(differentReturn: bool, pickupLocation: string, returnLocation: string,
                                    p: string, q: string)
    requires AllWhiteSpace(p) && AllWhiteSpace(q)
    ensures OneWayFee(differentReturn, pickupLocation, returnLocation) == OneWayFee(differentReturn, returnLocation, pickupLocation)
    ensures OneWayFee(differentReturn, p + pickupLocation + q, returnLocation) == OneWayFee(differentReturn, pickupLocation, returnLocation)
    ensures OneWayFee(differentReturn, pickupLocation, p + returnLocation + q) == OneWayFee(differentReturn, pickupLocation, returnLocation)
  {
    TrimPadded(p, pickupLocation, q);
    TrimPadded(p, returnLocation, q);
  }

  /** The parts of a quotation fit together: one line per day in calendar
      order, the lines add up to the base total, the discount is exactly its
      rate of the base total and at most the base total, and the total is
      base minus discount plus fee, so it is never below the fee. */
  lemma QuoteShape(req: Request)
    requires ValidRequest(req)
    ensures QuoteOf(req).daysCount == req.returnDay - req.pickupDay + 1
    ensures |QuoteOf(req).breakdown| == QuoteOf(req).daysCount
    ensures forall i :: 0 <= i < QuoteOf(req).daysCount ==> QuoteOf(req).breakdown[i] == ItemFor(req.category, req.pickupDay + i)
    ensures SumValues(QuoteOf(req).breakdown) == QuoteOf(req).base
    ensures QuoteOf(req).discount * 100 == QuoteOf(req).base * QuoteOf(req).discountPercent
    ensures QuoteOf(req).total == QuoteOf(req).base - QuoteOf(req).discount + QuoteOf(req).oneWayFee
    ensures 0 <= QuoteOf(req).oneWayFee <= QuoteOf(req).total
  {
    var q := QuoteOf(req);
    BreakdownSumsToBase(req.category, Span(req.pickupDay, req.returnDay));
    DiscountExact(q.base, req.corporate, q.daysCount);
  }

  /** The discount of each tier, as a fraction of the base total. */
  lemma DiscountByTier(base: nat, corporate: bool, n: nat)
    requires base % 100 == 0
    ensures !corporate ==> Discount(base, DiscountPercent(corporate, n)) == 0
    ensures corporate && n < 3 ==> Discount(base, DiscountPercent(corporate, n)) * 10 == base
    ensures corporate && n >= 3 ==> Discount(base, DiscountPercent(corporate, n)) * 5 == base
  {
  }

  /** Keeping the vehicle one more day never makes the quotation cheaper,
      even where the longer rental moves into the 20 % corporate tier. */
  lemma QuoteMonotone(req: Request)
    requires ValidRequest(req)
    ensures QuoteOf(req.(returnDay := req.returnDay + 1)).base >= QuoteOf(req).base
    ensures QuoteOf(req.(returnDay := req.returnDay + 1)).total >= QuoteOf(req).total
  {
    var longer := req.(returnDay := req.returnDay + 1);
    var q, q' := QuoteOf(req), QuoteOf(longer);
    var c := req.category;
    var extra := DailyRate(c, req.returnDay + 1);
    BaseTotalExtend(c, req.pickupDay, req.returnDay);
    assert q'.base == q.base + extra;
    assert q'.daysCount == q.daysCount + 1;
    assert q'.oneWayFee == q.oneWayFee;
    DiscountByTier(q.base, req.corporate, q.daysCount);
    DiscountByTier(q'.base, req.corporate, q'.daysCount);
    DailyRateWithinCategory(c, req.returnDay + 1);
    if req.corporate && q.daysCount == 2 {
      // Two days at 10 % become three days at 20 %: the base total of the
      // two days is at most eight times the rate of the third.
      var first := req.pickupDay;
      BaseTotalExtend(c, first, first);
      assert Span(first, first) == [first];
      assert q.base == DailyRate(c, first) + DailyRate(c, first + 1);
      DailyRateWithinCategory(c, first);
      DailyRateWithinCategory(c, first + 1);
      assert q.base <= 8 * extra;
    }
  }

  /** One step of the accumulation: the running totals over the first
      `k + 1` days are those over the first `k` days plus day `k`. */
  lemma AccumulateDay(category: string, days: seq<Day>, k: nat)
    requires k < |days|
    ensures BaseTotal(category, days[..k + 1]) == BaseTotal(category, days[..k]) + DailyRate(category, days[k])
    ensures Breakdown(category, days[..k + 1]) == Breakdown(category, days[..k]) + [ItemFor(category, days[k])]
  {
    assert days[..k + 1][..k] == days[..k];
  }

  /** The loop over the rental days: each day's rate is added to the base
      total and its line appended to the breakdown, in calendar order. */
  method AccumulateRates(category: string, days: seq<Day>) returns (base: nat, breakdown: seq<LineItem>)
    ensures base == BaseTotal(category, days)
    ensures breakdown == Breakdown(category, days)
    ensures base == SumValues(breakdown)
  {
    base := 0;
    breakdown := [];
    var k := 0;
    while k < |days|
      invariant 0 <= k <= |days|
      invariant base == BaseTotal(category, days[..k])
      invariant breakdown == Breakdown(category, days[..k])
    {
      var day := days[k];
      var rate := DailyRate(category, day);
      base := base + rate;
      breakdown := breakdown + [ItemFor(category, day)];
      AccumulateDay(category, days, k);
      k := k + 1;
    }
    assert days[..k] == days;
    BreakdownSumsToBase(category, days);
  }

  /** The price quotation: the days from pickup to return are listed, their
      rates accumulated, then the discount and the one-way fee applied.
      No rounding is needed: every amount is a whole number of cents. */
  method CalculatePrice(req: Request) returns (q: Quote)
    requires ValidRequest(req)
    ensures q == QuoteOf(req)
    ensures q.daysCount == req.returnDay - req.pickupDay + 1
    ensures |q.breakdown| == q.daysCount
    ensures forall i :: 0 <= i < q.daysCount ==> q.breakdown[i] == ItemFor(req.category, req.pickupDay + i)
    ensures q.base == SumValues(q.breakdown)
    ensures q.discount * 100 == q.base * q.discountPercent
    ensures q.total == q.base - q.discount + q.oneWayFee
    ensures 0 <= q.oneWayFee <= q.total
  {
    var days := EnumerateDates(req.pickupDay, req.returnDay);
    var base, breakdown := AccumulateRates(req.category, days);
    var daysCount := |days|;
    var discountPercent := DiscountPercent(req.corporate, daysCount);
    var discount := Discount(base, discountPercent);
    var oneWayFee := OneWayFee(req.differentReturn, req.pickupLocation, req.returnLocation);
    var total := base - discount + oneWayFee;
    q := Quote(daysCount, base, discountPercent, discount, oneWayFee, total, breakdown);
    QuoteShape(req);
  }
}
