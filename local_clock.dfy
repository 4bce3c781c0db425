/** The day enumeration as logica.js writes it: JavaScript Date instants
    (milliseconds since the epoch, UTC), advanced by a fixed 24 hours, in a
    local time zone whose clocks change once.

    This module exists to show where that differs from stepping whole
    calendar days (Calendar.EnumerateDates, which the quotation uses): a
    day on which the clocks move lasts 23 or 25 hours, not 24. */
module LocalClock {
  import opened Calendar

  /** The fixed step of the loop: 24 * 60 * 60 * 1000 milliseconds. */
  const MsPerDay: int := 86400000

  /** A time zone that is at UTC until day `switchDay`, during which
      (after its midnight) its clocks move forward by `shift` milliseconds;
      a negative `shift` moves them back. */
  datatype Zone = Zone(switchDay: Day, shift: int)

  /** The shift is shorter than a day (one hour in practice). */
  predicate ValidZone(z: Zone) {
    -86400000 < z.shift < 86400000
  }

  /** The instant of local midnight at the start of day `d`, as a
      JavaScript `new Date(year, month, day)` gives it. */
  function Midnight(z: Zone, d: Day): int {
    d * 86400000 - (if d > z.switchDay then z.shift else 0)
  }

  /** The local calendar day of instant `t`, as getDay and getDate see it. */
  function LocalDay(z: Zone, t: int): Day {
    if t >= Midnight(z, z.switchDay + 1) then (t + z.shift) / 86400000
    else if t >= Midnight(z, z.switchDay) then z.switchDay
    else t / 86400000
  }

  /** The instants the loop visits: from `cur`, in steps of MsPerDay, while
      the instant is not after `endDate`. */
  function InstantsFrom(cur: int, endDate: int): seq<int>
    decreases if cur <= endDate then endDate - cur + 1 else 0
  {
    if cur <= endDate then [cur] + InstantsFrom(cur + 86400000, endDate) else []
  }

  /** The local days of the dates the loop collects, from local midnight of
      `start` up to local midnight of `end`. */
  function EnumerateDatesAsWritten(z: Zone, start: Day, end: Day): seq<Day> {
    var instants := InstantsFrom(Midnight(z, start), Midnight(z, end));
    seq(|instants|, i requires 0 <= i < |instants| => LocalDay(z, instants[i]))
  }

  /** Local midnight of a day belongs to that day. */
  lemma LocalDayOfMidnight(z: Zone, d: Day)
    requires ValidZone(z)
    ensures LocalDay(z, Midnight(z, d)) == d
  {
    if d > z.switchDay {
      assert Midnight(z, d) + z.shift == d * 86400000;
    } else if d < z.switchDay {
      assert Midnight(z, d) == d * 86400000;
    }
  }

  /** Without a clock change the fixed step agrees with calendar stepping:
      the loop yields exactly the days from `start` to `end`. */
  lemma {:induction false} AsWrittenWithoutClockChange(z: Zone, start: Day, end: Day)
    requires z.shift == 0
    ensures EnumerateDatesAsWritten(z, start, end) == Span(start, end)
    decreases if start <= end then end - start + 1 else 0
  {
    assert Midnight(z, start) + 86400000 == Midnight(z, start + 1);
    if start <= end {
      LocalDayOfMidnight(z, start);
      AsWrittenWithoutClockChange(z, start + 1, end);
      var tail := InstantsFrom(Midnight(z, start + 1), Midnight(z, end));
      var all := InstantsFrom(Midnight(z, start), Midnight(z, end));
      assert all == [Midnight(z, start)] + tail;
      var rest := EnumerateDatesAsWritten(z, start + 1, end);
      assert EnumerateDatesAsWritten(z, start, end) == [start] + rest by {
        forall i | 0 < i < |all|
          ensures EnumerateDatesAsWritten(z, start, end)[i] == rest[i - 1]
        {
          assert all[i] == tail[i - 1];
        }
      }
      assert Span(start, end) == [start] + Span(start + 1, end);
    }
  }

  /** Spring forward: the clocks move ahead one hour during day 1. A rental
      from day 0 to day 2 spans three calendar days, but the loop stops
      after two: from day 1 on it sits at 01:00, which is after midnight of
      day 2. */
  lemma SpringForwardDropsLastDay()
    ensures EnumerateDatesAsWritten(Zone(1, 3600000), 0, 2) == [0, 1]
    ensures Span(0, 2) == [0, 1, 2]
  {
    var z := Zone(1, 3600000);
    assert Midnight(z, 0) == 0;
    assert Midnight(z, 2) == 169200000;
    assert InstantsFrom(172800000, 169200000) == [];
    assert InstantsFrom(86400000, 169200000) == [86400000];
    assert InstantsFrom(0, 169200000) == [0, 86400000];
    assert LocalDay(z, 0) == 0;
    assert LocalDay(z, 86400000) == 1;
  }

  /** Fall back: the clocks move back one hour during day 1. A rental from
      day 1 to day 3 lists day 1 twice (its 25 hours hold two of the 24-hour
      steps) and leaves day 3 out. */
  lemma FallBackRepeatsADay()
    ensures EnumerateDatesAsWritten(Zone(1, -3600000), 1, 3) == [1, 1, 2]
    ensures Span(1, 3) == [1, 2, 3]
  {
    var z := Zone(1, -3600000);
    assert Midnight(z, 1) == 86400000;
    assert Midnight(z, 3) == 262800000;
    assert InstantsFrom(345600000, 262800000) == [];
    assert InstantsFrom(259200000, 262800000) == [259200000];
    assert InstantsFrom(172800000, 262800000) == [172800000, 259200000];
    assert InstantsFrom(86400000, 262800000) == [86400000, 172800000, 259200000];
    assert LocalDay(z, 86400000) == 1;
    assert LocalDay(z, 172800000) == 1;
    assert LocalDay(z, 259200000) == 2;
  }
}
