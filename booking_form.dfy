/** What the booking form's submit handler does before and around the
    quotation: it supplies the default category, rejects dates that are
    missing or out of order, and picks the fleet to show for the category. */
module BookingForm {
  import opened Calendar
  import opened Rates
  import opened Pricing

  datatype Option<T> = None | Some(value: T)

  /** A minute of the day, 00:00 to 23:59. */
  type Minute = m: nat | m < 1440

  /** The value of a date-and-time field: a local calendar day and the
      minute of that day. A field that does not hold a valid date is None. */
  datatype DateTime = DateTime(day: Day, minute: Minute)

  /** Whether `a` is an earlier moment than `b`. */
  predicate Earlier(a: DateTime, b: DateTime) {
    a.day < b.day || (a.day == b.day && a.minute < b.minute)
  }

  /** The category used when the vehicle-type field is empty. */
  const DefaultCategory: string := "carro"

  /** The vehicle-type field's value, or the default category when it is
      empty. */
  function CategoryOrDefault(value: string): (c: string)
    ensures c != ""
    ensures value != "" ==> c == value
    ensures value == "" ==> c == DefaultCategory
  {
    if value == "" then DefaultCategory else value
  }

  /** The request the handler passes to the quotation, or None when it
      rejects the dates (shows its alert and stops): when either date is
      missing or the return is earlier than the pickup. */
  function AcceptRequest(categoryValue: string, pickup: Option<DateTime>, ret: Option<DateTime>,
                         corporate: bool, pickupLocation: string, returnLocation: string,
                         differentReturn: bool): (r: Option<Request>)
    ensures r.Some? <==> pickup.Some? && ret.Some? && !Earlier(ret.value, pickup.value)
    ensures r.Some? ==> ValidRequest(r.value)
    ensures r.Some? ==> r.value.pickupDay == pickup.value.day && r.value.returnDay == ret.value.day
    ensures r.Some? ==> r.value.category == CategoryOrDefault(categoryValue)
  {
    if pickup.None? || ret.None? || Earlier(ret.value, pickup.value) then None
    else Some(Request(CategoryOrDefault(categoryValue), pickup.value.day, ret.value.day,
                      corporate, pickupLocation, returnLocation, differentReturn))
  }

  /** The two fleets of the catalogue. */
  datatype Fleet = Cars | Vans

  /** The fleet shown for a category: the vans for "carrinha", the cars
      for "carro" and, as a fallback, for every other category. */
  function FleetOf(category: string): Fleet {
    if category == Van then Vans else Cars
  }

  /** The vehicles shown and the price quoted agree: the van fleet is shown
      exactly when the van rates are charged. */
  lemma FleetMatchesRates(category: string, d: Day)
    ensures FleetOf(category) == Vans <==> DailyRate(category, d) == DailyRate(Van, d)
  {
  }
}
