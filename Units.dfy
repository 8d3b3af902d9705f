/**
 * The display unit flag and the Celsius-to-Fahrenheit conversion done at
 * render time. The flag is the string "C" or "F"; code that reads it only
 * asks whether it equals "C".
 */
module Units {

  const Celsius: string := "C"
  const Fahrenheit: string := "F"

  predicate IsUnit(u: string) {
    u == Celsius || u == Fahrenheit
  }

  /** The updater passed to the unit setter: "C" becomes "F", anything else becomes "C". */
  function Toggled(u: string): (r: string)
    ensures IsUnit(r)
    ensures r == Fahrenheit <==> u == Celsius
  {
    if u == Celsius then Fahrenheit else Celsius
  }

  /** Toggling twice restores a unit. */
  lemma ToggleTwice(u: string)
    requires IsUnit(u)
    ensures Toggled(Toggled(u)) == u
    ensures Toggled(u) != u
  {
  }

  /**
   * `Math.round(c * 9 / 5 + 32)` for an integral c, in integers: Math.round(x)
   * is floor(x + 1/2), and x + 1/2 == (18 * c + 325) / 10.
   */
  function FahrenheitOf(c: int): (f: int)
    ensures (f as real) - 0.5 < (c as real) * 9.0 / 5.0 + 32.0 < (f as real) + 0.5
  {
    RoundingIsExact(c);
    (18 * c + 325) / 10
  }

  /**
   * The integer formula is the nearest integer to the exact value, and the
   * exact value is never half-way between two integers (18 * c + 325 is odd),
   * so the tie-breaking of Math.round never matters.
   */
  lemma RoundingIsExact(c: int)
    ensures var f := (18 * c + 325) / 10;
      (f as real) - 0.5 < (c as real) * 9.0 / 5.0 + 32.0 < (f as real) + 0.5
  {
    var n := 18 * c + 325;
    var f, m := n / 10, n % 10;
    assert n == 10 * f + m && 0 <= m < 10;
    assert m != 0;
    assert (n as real) == 10.0 * (f as real) + (m as real);
    assert (c as real) * 9.0 / 5.0 + 32.0 + 0.5 == (n as real) / 10.0;
  }

  /** Reference points: 27 °C shows as 81 °F, -1 °C as 30 °F, -40 °C as -40 °F. */
  lemma FahrenheitExamples()
    ensures FahrenheitOf(27) == 81 && FahrenheitOf(-1) == 30 && FahrenheitOf(-40) == -40
    ensures FahrenheitOf(0) == 32 && FahrenheitOf(100) == 212
  {
  }
}
