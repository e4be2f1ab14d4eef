/** Python's `round()` on a number (round half to even), and rounding to a
    quantum `1/scale`: `round(x * 100) / 100` rounds to cents (scale 100),
    `round(x)` to whole units (scale 1). */
module Rounding {

  predicate IsInteger(x: real) {
    x.Floor as real == x
  }

  /** The integer nearest to x; a tie goes to the even neighbour. */
  function RoundHalfEven(x: real): (n: int)
    ensures -0.5 <= x - n as real <= 0.5
    ensures (x - n as real == 0.5 || x - n as real == -0.5) ==> n % 2 == 0
  {
    var f := x.Floor;
    var frac := x - f as real;
    if frac < 0.5 then f
    else if frac > 0.5 then f + 1
    else if f % 2 == 0 then f
    else f + 1
  }

  lemma RoundInteger(n: int)
    ensures RoundHalfEven(n as real) == n
  {
  }

  /** Rounding never reverses the order of two numbers. */
  lemma RoundMonotone(x: real, y: real)
    requires x <= y
    ensures RoundHalfEven(x) <= RoundHalfEven(y)
  {
    var fx, fy := x.Floor, y.Floor;
    if fx < fy {
      assert RoundHalfEven(x) <= fx + 1;
      assert fy <= RoundHalfEven(y);
    }
  }

  /** x is a whole number of quanta `1/scale`. */
  predicate OnGrid(x: real, scale: int)
    requires scale > 0
  {
    IsInteger(x * scale as real)
  }

  /** `round(x * scale) / scale`. */
  function Quantize(x: real, scale: int): (r: real)
    requires scale > 0
    ensures OnGrid(r, scale)
    ensures -0.5 <= (x - r) * scale as real <= 0.5
    ensures ((x - r) * scale as real == 0.5 || (x - r) * scale as real == -0.5) ==> (r * scale as real).Floor % 2 == 0
  {
    var n := RoundHalfEven(x * scale as real);
    var q := n as real / scale as real;
    assert q * scale as real == n as real;
    assert (n as real).Floor == n;
    assert OnGrid(q, scale);
    assert (x - q) * scale as real == x * scale as real - n as real;
    q
  }

  /** A value already on the grid is left alone. */
  lemma {:induction false} QuantizeOnGrid(x: real, scale: int)
    requires scale > 0
    requires OnGrid(x, scale)
    ensures Quantize(x, scale) == x
  {
    var m := (x * scale as real).Floor;
    RoundInteger(m);
    assert x * scale as real == m as real;
    assert x == m as real / scale as real;
  }

  lemma QuantizeIdempotent(x: real, scale: int)
    requires scale > 0
    ensures Quantize(Quantize(x, scale), scale) == Quantize(x, scale)
  {
    QuantizeOnGrid(Quantize(x, scale), scale);
  }

  lemma {:induction false} QuantizeMonotone(x: real, y: real, scale: int)
    requires scale > 0
    requires x <= y
    ensures Quantize(x, scale) <= Quantize(y, scale)
  {
    assert x * scale as real <= y * scale as real;
    RoundMonotone(x * scale as real, y * scale as real);
    var a, b := RoundHalfEven(x * scale as real), RoundHalfEven(y * scale as real);
    assert a as real / scale as real <= b as real / scale as real;
  }

  /** To whole units, the quantum rule is Python's `round()` itself. */
  lemma QuantizeUnit(x: real)
    ensures Quantize(x, 1) == RoundHalfEven(x) as real
  {
  }

  /** A residual value of 200.004 is read as 200.00; 200.05 rounds to 200
      in whole units; ties go to the even neighbour. */
  lemma QuantizeExamples()
    ensures Quantize(200.004, 100) == 200.0
    ensures Quantize(200.05, 1) == 200.0
    ensures Quantize(200.005, 100) == 200.0
    ensures Quantize(0.5, 1) == 0.0 && Quantize(1.5, 1) == 2.0
  {
    assert RoundHalfEven(20000.4) == 20000;
    assert RoundHalfEven(20000.5) == 20000;
    assert RoundHalfEven(200.05) == 200;
    assert RoundHalfEven(0.5) == 0;
    assert RoundHalfEven(1.5) == 2;
  }
}
