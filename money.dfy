/**
 * Money crosses the HTTP boundary in currency units and is stored as integer cents:
 * writers compute `int(amount * 100)`, readers `cents / 100.0`. Reals stand for the floats.
 */
module Money {

  /** `cents / 100.0` in the readers. */
  function ToUnits(cents: int): real
  {
    cents as real / 100.0
  }

  /** `int(units * 100)` in the writers: Python's int() truncates toward zero. */
  function ToCents(units: real): (c: int)
    ensures units >= 0.0 ==> c >= 0 && c as real <= units * 100.0 < c as real + 1.0
    ensures units < 0.0 ==> c <= 0 && c as real - 1.0 < units * 100.0 <= c as real
  {
    var x := units * 100.0;
    if x >= 0.0 then x.Floor else -((-x).Floor)
  }

  /** A stored amount read back and written again is the same number of cents. */
  lemma CentsRoundTrip(cents: int)
    ensures ToCents(ToUnits(cents)) == cents
  {
    assert ToUnits(cents) * 100.0 == cents as real;
  }

  /** Writing then reading loses less than one cent, toward zero. */
  lemma UnitsRoundTrip(units: real)
    requires units >= 0.0
    ensures ToUnits(ToCents(units)) <= units < ToUnits(ToCents(units)) + 0.01
  {
  }
}
