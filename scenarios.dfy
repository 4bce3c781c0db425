/** Worked quotations. The days are those of January 1970: day 1 is
    Friday 2 January, day 2 Saturday 3 January, day 3 Sunday 4 January,
    day 4 Monday 5 January and day 5 Tuesday 6 January. */
module Scenarios {
  import opened Calendar
  import opened Pricing
  import opened Text

  /** A car for one weekday, no tariff, same location: 6 euros. */
  lemma OneWeekdayCar()
    ensures var q := QuoteOf(Request("carro", 4, 4, false, "Lisboa", "Lisboa", false));
      q.daysCount == 1 && q.base == 600 && q.discountPercent == 0 && q.oneWayFee == 0 && q.total == 600
  {
    assert Span(4, 4) == [4];
  }

  /** A corporate car from Friday to Sunday: 6 + 15 + 15 = 36 euros, less
      20 %, is 28.80 euros. */
  lemma CorporateWeekendCar()
    ensures var q := QuoteOf(Request("carro", 1, 3, true, "Lisboa", "Lisboa", false));
      q.daysCount == 3 && q.base == 3600 && q.discountPercent == 20 && q.discount == 720 && q.total == 2880
  {
    var days := Span(1, 3);
    assert days == [1, 2, 3];
    assert days[..2] == [1, 2] && days[..2][..1] == [1];
    assert BaseTotal("carro", days) == 3600;
  }

  /** A corporate car for Monday and Tuesday, returned in another city:
      12 euros, less 10 %, plus the 30 euro fee, is 40.80 euros; returned
      in the same city (up to spaces around the name) it is 10.80 euros. */
  lemma CorporateOneWayCar()
    ensures var q := QuoteOf(Request("carro", 4, 5, true, "Lisboa", "Porto", true));
      q.daysCount == 2 && q.base == 1200 && q.discountPercent == 10 && q.discount == 120
      && q.oneWayFee == 3000 && q.total == 4080
    ensures var q := QuoteOf(Request("carro", 4, 5, true, "Lisboa", " Lisboa ", true));
      q.oneWayFee == 0 && q.total == 1080
  {
    var days := Span(4, 5);
    assert days == [4, 5];
    assert days[..1] == [4];
    assert BaseTotal("carro", days) == 1200;
    assert Trim("Lisboa") == "Lisboa";
    assert Trim("Porto") == "Porto";
    assert " Lisboa " == [' '] + "Lisboa" + [' '];
    TrimPadded([' '], "Lisboa", [' ']);
  }

  /** A van for one Saturday: 20 euros. */
  lemma SaturdayVan()
    ensures var q := QuoteOf(Request("carrinha", 2, 2, false, "", "", false));
      q.daysCount == 1 && q.base == 2000 && q.total == 2000
  {
    assert Span(2, 2) == [2];
  }
}
