/** `get_current_month`: the first day of today's month, as the service names months. */
module Months {
  import Text
  import Models

  /** A calendar date as Python's `date` holds it (years 1 to 9999). */
  datatype Date = Date(year: int, month: int, day: int) {
    predicate Valid() {
      1 <= year <= 9999 && 1 <= month <= 12 && 1 <= day <= 31
    }
  }

  /** `f"{today.year}-{today.month:02d}-01"`: the year is not padded, the month is. */
  function CurrentMonth(today: Date): (s: string)
    requires today.Valid()
    ensures |s| == |Text.DecimalString(today.year)| + 6
    ensures s[|s| - 3..] == "-01"
  {
    Text.DecimalString(today.year) + "-" + Text.ZeroPad2(today.month) + "-01"
  }

  /**
   * For a four-digit year the result matches the month pattern `^\d{4}-\d{2}-01$`, and its
   * digit groups read back as today's year and month.
   */
  lemma {:induction false} CurrentMonthShape(today: Date)
    requires today.Valid() && today.year >= 1000
    ensures Models.IsMonthString(CurrentMonth(today))
    ensures Text.DecimalValue(CurrentMonth(today)[..4]) == today.year
    ensures Text.DecimalValue(CurrentMonth(today)[5..7]) == today.month
  {
    var y, m := Text.DecimalString(today.year), Text.ZeroPad2(today.month);
    Text.DecimalLength(today.year);
    Text.DecimalRoundTrip(today.year);
    var s := CurrentMonth(today);
    assert s == y + "-" + m + "-01";
    assert s[..4] == y;
    assert s[5..7] == m;
    assert s[8..] == "01";
  }
}
