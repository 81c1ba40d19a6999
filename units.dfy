/**
 * Conversion between dollars (the display unit) and milliunits (the service's integer
 * subunit, 1000 per dollar), with Python's round-half-to-even.
 */
module Units {

  const MilliunitsPerDollar: int := 1000

  /** `n` is a nearest integer to `x`, and the even one when `x` lies exactly halfway. */
  predicate NearestTiesEven(x: real, n: int) {
    && -0.5 <= x - n as real <= 0.5
    && ((x - n as real == 0.5 || n as real - x == 0.5) ==> n % 2 == 0)
  }

  /** Python's `round(x)` on an exact value: round half to even ("banker's rounding"). */
  function RoundHalfEven(x: real): (r: int)
    ensures NearestTiesEven(x, r)
  {
    var fl := x.Floor;
    var frac := x - fl as real;
    if frac < 0.5 then fl
    else if frac > 0.5 then fl + 1
    else if fl % 2 == 0 then fl
    else fl + 1
  }

  /** At most one integer is the nearest-ties-even rounding of `x`. */
  lemma {:induction false} NearestTiesEvenUnique(x: real, n: int, m: int)
    requires NearestTiesEven(x, n) && NearestTiesEven(x, m)
    ensures n == m
  {
  }

  /** `round(x)` of an integral value is that value. */
  lemma {:induction false} RoundIntegral(n: int)
    ensures RoundHalfEven(n as real) == n
  {
    NearestTiesEvenUnique(n as real, RoundHalfEven(n as real), n);
  }

  /** Rounding never reverses the order of two values. */
  lemma {:induction false} RoundMonotone(x: real, y: real)
    requires x <= y
    ensures RoundHalfEven(x) <= RoundHalfEven(y)
  {
  }

  /** `dollars_to_milliunits`: `int(round(dollars * 1000))`. */
  function DollarsToMilliunits(dollars: real): (m: int)
    ensures NearestTiesEven(dollars * 1000.0, m)
  {
    RoundHalfEven(dollars * MilliunitsPerDollar as real)
  }

  /** `milliunits_to_dollars`: exact division by 1000. */
  function MilliunitsToDollars(milliunits: int): (dollars: real)
    ensures dollars * 1000.0 == milliunits as real
  {
    milliunits as real / MilliunitsPerDollar as real
  }

  /** Converting milliunits to dollars and back returns the original milliunits. */
  lemma {:induction false} MilliunitsRoundTrip(m: int)
    ensures DollarsToMilliunits(MilliunitsToDollars(m)) == m
  {
    RoundIntegral(m);
  }

  /** A dollar amount given to the cent survives the round trip through milliunits exactly. */
  lemma {:induction false} CentsRoundTrip(cents: int)
    ensures MilliunitsToDollars(DollarsToMilliunits(cents as real / 100.0)) == cents as real / 100.0
  {
    assert (cents as real / 100.0) * 1000.0 == (cents * 10) as real;
    RoundIntegral(cents * 10);
  }

  /** For every dollar amount, the round trip lands within half a milliunit of it. */
  lemma {:induction false} RoundTripWithinHalfMilliunit(dollars: real)
    ensures -0.0005 <= MilliunitsToDollars(DollarsToMilliunits(dollars)) - dollars <= 0.0005
  {
  }

  /** Ties go to the even milliunit: 0.0025 dollars is 2 milliunits and 0.0035 is 4. */
  lemma {:induction false} TiesGoToEven()
    ensures DollarsToMilliunits(0.0025) == 2
    ensures DollarsToMilliunits(0.0035) == 4
    ensures DollarsToMilliunits(-0.0025) == -2
  {
    NearestTiesEvenUnique(2.5, DollarsToMilliunits(0.0025), 2);
    NearestTiesEvenUnique(3.5, DollarsToMilliunits(0.0035), 4);
    NearestTiesEvenUnique(-2.5, DollarsToMilliunits(-0.0025), -2);
  }
}
