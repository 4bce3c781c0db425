/** Calendar days and weekdays, and the inclusive day span of a rental.

    A date is a day number: day 0 is 1 January 1970 and every later (earlier)
    calendar day is one more (less). Weekdays are numbered as JavaScript's
    getDay numbers them: Sunday 0, Monday 1, ..., Saturday 6.
 */
module Calendar {

  /** A calendar day, counted from 1 January 1970. */
  type Day = int

  /** The weekday of day 0: 1 January 1970 was a Thursday. */
  const EpochWeekday: int := 4

  const Sunday: int := 0
  const Saturday: int := 6

  /** The weekday of `d`, Sunday 0 ... Saturday 6 (Dafny's % is Euclidean,
      so this is right for days before 1970 as well). */
  function Weekday(d: Day): (w: int)
    ensures 0 <= w < 7
  {
    (d + EpochWeekday) % 7
  }

  /** Whether `d` falls on a Saturday or a Sunday. */
  predicate IsWeekend(d: Day) {
    var w := Weekday(d);
    w == Sunday || w == Saturday
  }

  /** The weekday advances by one, modulo 7, from one day to the next. */
  lemma WeekdayNext(d: Day)
    ensures Weekday(d + 1) == (Weekday(d) + 1) % 7
  {
  }

  /** Being a weekend day repeats every seven days, in both directions. */
  lemma IsWeekendPeriodic(d: Day, k: int)
    ensures IsWeekend(d + 7 * k) == IsWeekend(d)
  {
  }

  /** The weekend is exactly the Saturday and the Sunday that follows it:
      a weekend day is a Saturday that starts a weekend, or a Sunday that
      ends one, and the five days from Monday to Friday are not weekend days. */
  lemma WeekendIsSaturdayAndSunday(d: Day)
    ensures IsWeekend(d) <==> Weekday(d) == Saturday || Weekday(d) == Sunday
    ensures !IsWeekend(d) <==> 1 <= Weekday(d) <= 5
    ensures Weekday(d) == Saturday ==> IsWeekend(d + 1) && !IsWeekend(d - 1)
    ensures Weekday(d) == Sunday ==> IsWeekend(d - 1) && !IsWeekend(d + 1)
  {
  }

  /** The first week of 1970 on the calendar: Thursday 1 January to
      Wednesday 7 January, with the weekend on the 3rd and the 4th. */
  lemma FirstWeekOf1970()
    ensures !IsWeekend(0) && !IsWeekend(1)
    ensures Weekday(2) == Saturday && IsWeekend(2)
    ensures Weekday(3) == Sunday && IsWeekend(3)
    ensures !IsWeekend(4) && !IsWeekend(5) && !IsWeekend(6)
  {
  }

  /** Every calendar day from `start` to `end`, both included, in order;
      empty when `start` comes after `end`. */
  function Span(start: Day, end: Day): (r: seq<Day>)
    ensures forall i :: 0 <= i < |r| ==> start <= r[i] <= end
  {
    seq(if start <= end then end - start + 1 else 0, i => start + i)
  }

  /** A span is exactly the set of days between its bounds: each day from
      `start` to `end` occurs in it, at its own position, and nothing else. */
  lemma SpanMembers(start: Day, end: Day, d: Day)
    ensures d in Span(start, end) <==> start <= d <= end
    ensures start <= d <= end ==> Span(start, end)[d - start] == d
  {
    if start <= d <= end {
      assert Span(start, end)[d - start] == d;
    }
  }

  /** The days of a span are consecutive and strictly ascending. */
  lemma SpanAscending(start: Day, end: Day)
    ensures forall i :: 0 < i < |Span(start, end)| ==> Span(start, end)[i] == Span(start, end)[i - 1] + 1
    ensures forall i, j :: 0 <= i < j < |Span(start, end)| ==> Span(start, end)[i] < Span(start, end)[j]
  {
  }

  /** Extending a span by its next day appends that day. */
  lemma SpanSnoc(start: Day, end: Day)
    requires start <= end + 1
    ensures Span(start, end + 1) == Span(start, end) + [end + 1]
  {
  }

  /** The list of rental days: the calendar days from `start` to `end`
      inclusive, stepping one calendar day at a time. */
  method EnumerateDates(start: Day, end: Day) returns (days: seq<Day>)
    ensures |days| == if start <= end then end - start + 1 else 0
    ensures forall i :: 0 <= i < |days| ==> days[i] == start + i
    ensures start <= end ==> days[0] == start && days[|days| - 1] == end
    ensures days == Span(start, end)
  {
    days := [];
    var cur := start;
    while cur <= end
      invariant start <= cur <= (if start <= end then end + 1 else start)
      invariant |days| == cur - start
      invariant forall i :: 0 <= i < |days| ==> days[i] == start + i
      decreases end - cur
    {
      days := days + [cur];
      cur := cur + 1;
    }
  }
}
