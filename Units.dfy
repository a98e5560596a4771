// Degree-to-radian conversion of src/main/kotlin/com/kabuko/Utilies.kt, over exact reals.

module Units {
  type Positive = r: real | r > 0.0 witness 1.0

  /** kotlin.math.PI, left uninterpreted: all the model relies on is that it is positive. */
  const PI: Positive

  /** `Double.toRadians()`: the angle in radians of an angle given in degrees. */
  function ToRadians(degrees: real): (radians: real)
    ensures radians * 180.0 == degrees * PI
  {
    degrees * PI / 180.0
  }

  lemma ToRadiansZero()
    ensures ToRadians(0.0) == 0.0
  {
  }

  /** Half a turn is PI radians. */
  lemma ToRadiansHalfTurn()
    ensures ToRadians(180.0) == PI
  {
  }

  lemma ToRadiansAdditive(a: real, b: real)
    ensures ToRadians(a + b) == ToRadians(a) + ToRadians(b)
  {
  }

  lemma ToRadiansOdd(x: real)
    ensures ToRadians(-x) == -ToRadians(x)
  {
  }

  lemma ToRadiansStrictlyIncreasing(a: real, b: real)
    requires a < b
    ensures ToRadians(a) < ToRadians(b)
  {
    assert (b - a) * PI > 0.0;
    ToRadiansAdditive(a, b - a);
  }
}
