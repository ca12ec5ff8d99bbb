/** Exact decimal amounts and the two-decimal rounding used for the
    category allocation. decimal.js values are modelled as `real`, which is
    exact; `toFixed(2)` under decimal.js's default rounding mode
    (ROUND_HALF_UP: ties go away from zero) is `Round2`. */
module Money {

  /** x * 100 rounded to the nearest integer, ties away from zero. */
  function Cents(x: real): int
  {
    if x >= 0.0 then (x * 100.0 + 0.5).Floor else -((-x * 100.0 + 0.5).Floor)
  }

  /** `x.toFixed(2)` read back as a number: rounding never flips the sign. */
  function Round2(x: real): (r: real)
    ensures x >= 0.0 ==> r >= 0.0
    ensures x <= 0.0 ==> r <= 0.0
  {
    Cents(x) as real / 100.0
  }

  /** x is a whole number of cents. */
  predicate IsCents(x: real)
  {
    (x * 100.0).Floor as real == x * 100.0
  }

  /** Rounding moves a value by at most half a cent. */
  lemma Round2Error(x: real)
    ensures -0.005 <= Round2(x) - x <= 0.005
  {
    var y := x * 100.0;
    if x >= 0.0 {
      assert y + 0.5 - 1.0 < (y + 0.5).Floor as real <= y + 0.5;
    } else {
      assert -y + 0.5 - 1.0 < (-y + 0.5).Floor as real <= -y + 0.5;
    }
  }

  /** The result of rounding is a whole number of cents. */
  lemma Round2IsCents(x: real)
    ensures IsCents(Round2(x))
  {
    var c := Cents(x);
    assert Round2(x) == c as real / 100.0;
    assert Round2(x) * 100.0 == c as real;
  }

  /** Rounding leaves a whole number of cents unchanged. */
  lemma Round2OfCents(x: real)
    requires IsCents(x)
    ensures Round2(x) == x
  {
    var k := (x * 100.0).Floor;
    if x >= 0.0 {
      assert (x * 100.0 + 0.5).Floor == k;
    } else {
      assert (-x * 100.0 + 0.5).Floor == -k;
    }
  }

  /** Whole cents are closed under addition. */
  lemma CentsAdd(a: real, b: real)
    requires IsCents(a) && IsCents(b)
    ensures IsCents(a + b)
  {
    var ka, kb := (a * 100.0).Floor, (b * 100.0).Floor;
    assert (a + b) * 100.0 == (ka + kb) as real;
  }

  /** Rounding is symmetric about zero (ties away from zero both ways). */
  lemma Round2Neg(x: real)
    ensures Round2(-x) == -Round2(x)
  {
    if x > 0.0 {
      assert Cents(-x) == -Cents(x);
    } else if x < 0.0 {
      assert Cents(-x) == -Cents(x);
    }
  }

  /** Every half cent rounds away from zero: k + 1/2 cents becomes k + 1
      cents, and its negation becomes -(k + 1) cents. */
  lemma Round2HalfUp(k: nat)
    ensures Round2((k as real + 0.5) / 100.0) == (k + 1) as real / 100.0
    ensures Round2(-((k as real + 0.5) / 100.0)) == -((k + 1) as real / 100.0)
  {
    var x := (k as real + 0.5) / 100.0;
    assert x * 100.0 + 0.5 == (k + 1) as real;
    assert Cents(x) == k + 1;
    Round2Neg(x);
  }
}
