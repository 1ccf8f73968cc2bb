/** The Celsius/Fahrenheit conversion of the live weather report, over exact reals. */
module Temperature {

  /** `temp_c * 9/5 + 32`. */
  function CelsiusToFahrenheit(c: real): (f: real)
    ensures FahrenheitToCelsius(f) == c
  {
    c * 9.0 / 5.0 + 32.0
  }

  /** The inverse map, `(f - 32) * 5/9`. */
  function FahrenheitToCelsius(f: real): real
  {
    (f - 32.0) * 5.0 / 9.0
  }

  /** Converting a Fahrenheit reading to Celsius and back gives the reading again. */
  lemma CelsiusToFahrenheitInvertsBack(f: real)
    ensures CelsiusToFahrenheit(FahrenheitToCelsius(f)) == f
  {
  }

  /** The conversion is strictly increasing, so it never reorders two readings. */
  lemma CelsiusToFahrenheitStrictlyIncreasing(a: real, b: real)
    requires a < b
    ensures CelsiusToFahrenheit(a) < CelsiusToFahrenheit(b)
  {
  }

  /** Freezing and boiling points of water, and the point where both scales agree. */
  lemma CelsiusToFahrenheitFixedPoints()
    ensures CelsiusToFahrenheit(0.0) == 32.0
    ensures CelsiusToFahrenheit(100.0) == 212.0
    ensures CelsiusToFahrenheit(-40.0) == -40.0
  {
  }
}
