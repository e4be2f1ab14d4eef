/** The two depreciation curves and the name -> curve registry. A curve maps
    the days elapsed since acquisition to a present value, from
    `startValue` on day 0 to `endValue` on day `days`. Arithmetic is exact;
    rounding belongs to the schedule. */
module Curves {
  import opened Results

  datatype Shape = Parabola | Linear

  /** `methods[method]` over the registry {'parabola', 'linear'}. */
  function LookupMethod(name: string): (r: Result<Shape>)
    ensures r.Ok? <==> name == "parabola" || name == "linear"
    ensures r.Ok? ==> (r.value == Parabola <==> name == "parabola")
    ensures r.Err? ==> r.error == KeyError(name)
  {
    if name == "parabola" then Ok(Parabola)
    else if name == "linear" then Ok(Linear)
    else Err(KeyError(name))
  }

  /** The parabola through (0, startValue) whose vertex is (days, endValue):
      value falls fastest at first and flattens out at the end. */
  function PresentValueByParabola(day: int, startValue: real, endValue: real, days: int): (r: Result<real>)
    ensures r.Err? <==> days == 0
    ensures r.Err? ==> r.error == ZeroDivisionError
    ensures r.Ok? && day == 0 ==> r.value == startValue
    ensures r.Ok? && day == days ==> r.value == endValue
  {
    if days == 0 then Err(ZeroDivisionError)
    else
      var d := days as real;
      var a := (startValue - endValue) / (days * days) as real;
      var b := -2.0 * (startValue - endValue) / d;
      var c := startValue;
      var x := day as real;
      assert day == days ==> a * (x * x) + b * x == (startValue - endValue) - 2.0 * (startValue - endValue) by {
        if day == days {
          assert (days * days) as real == d * d;
        }
      }
      Ok(a * (x * x) + b * x + c)
  }

  /** The straight line from (0, startValue) to (days, endValue). */
  function PresentValueByLinear(day: int, startValue: real, endValue: real, days: int): (r: Result<real>)
    ensures r.Err? <==> days == 0
    ensures r.Err? ==> r.error == ZeroDivisionError
    ensures r.Ok? && day == 0 ==> r.value == startValue
    ensures r.Ok? && day == days ==> r.value == endValue
  {
    if days == 0 then Err(ZeroDivisionError)
    else
      var k := -(startValue - endValue) / days as real;
      var b := startValue;
      Ok(k * day as real + b)
  }

  /** The registry's dispatch: the curve the shape names. */
  function PresentValue(shape: Shape, day: int, startValue: real, endValue: real, days: int): Result<real> {
    match shape
    case Parabola => PresentValueByParabola(day, startValue, endValue, days)
    case Linear => PresentValueByLinear(day, startValue, endValue, days)
  }

  lemma MulNonNegative(a: real, b: real)
    requires a >= 0.0 && b >= 0.0
    ensures a * b >= 0.0
  {
  }

  lemma ParabolaDifference(a: real, d: real, x: real, y: real)
    ensures (a * (x * x) + (-2.0 * a * d) * x) - (a * (y * y) + (-2.0 * a * d) * y)
         == a * ((y - x) * (2.0 * d - x - y))
  {
  }

  /** The parabola's coefficients for a depreciating asset: a = s / days^2
      is non-negative and b = -2 s / days is -2 a days. */
  lemma ParabolaCoefficients(s: real, days: int)
    requires s >= 0.0 && days > 0
    ensures s / (days * days) as real >= 0.0
    ensures -2.0 * s / days as real == -2.0 * (s / (days * days) as real) * days as real
  {
    var d := days as real;
    assert (days * days) as real == d * d;
    var a := s / (days * days) as real;
    assert a * (d * d) == s;
    assert -2.0 * a * d * d == -2.0 * s;
  }

  /** The parabola a x^2 + b x + s0 with a >= 0 and b = -2 a d falls on
      [0, d]. */
  lemma ParabolaOrder(a: real, b: real, d: real, x: real, y: real, xx: real, yy: real, s0: real, vx: real, vy: real)
    requires a >= 0.0 && b == -2.0 * a * d && 0.0 <= x <= y <= d
    requires xx == x * x && yy == y * y
    requires vx == a * xx + b * x + s0 && vy == a * yy + b * y + s0
    ensures vx >= vy
  {
    ParabolaDifference(a, d, x, y);
    MulNonNegative(y - x, 2.0 * d - x - y);
    MulNonNegative(a, (y - x) * (2.0 * d - x - y));
  }

  /** The parabola's value on day x with its coefficients written out. */
  lemma ParabolaAt(x: int, startValue: real, endValue: real, days: int)
    requires days > 0
    ensures PresentValueByParabola(x, startValue, endValue, days).value
         == ((startValue - endValue) / (days * days) as real) * ((x as real) * (x as real))
            + (-2.0 * (startValue - endValue) / days as real) * (x as real) + startValue
  {
  }

  /** The parabola in vertex form: the residual value plus the depreciable
      amount times the squared fraction of the life still to run. Its slope
      is therefore zero on the last day. */
  lemma ParabolaVertexForm(x: int, startValue: real, endValue: real, days: int)
    requires days > 0
    ensures PresentValueByParabola(x, startValue, endValue, days).value
         == endValue + (startValue - endValue) * (((days - x) * (days - x)) as real / (days * days) as real)
  {
    var s, d, t := startValue - endValue, days as real, x as real;
    var a := s / (days * days) as real;
    ParabolaAt(x, startValue, endValue, days);
    assert (days * days) as real == d * d;
    assert ((days - x) * (days - x)) as real == (d - t) * (d - t);
    assert a * (d * d) == s;
    assert -2.0 * s / d == -2.0 * a * d;
    calc {
      endValue + s * (((d - t) * (d - t)) / (d * d));
      endValue + a * ((d - t) * (d - t));
      endValue + a * (d * d) - 2.0 * a * d * t + a * (t * t);
      startValue + (-2.0 * a * d) * t + a * (t * t);
    }
  }

  /** Parabola: the value lost from one day to the next never grows, so
      depreciation slows down over the life. */
  lemma ParabolaDecliningLoss(x: int, startValue: real, endValue: real, days: int)
    requires days > 0 && startValue >= endValue
    ensures var v0, v1, v2 := PresentValueByParabola(x, startValue, endValue, days).value,
                              PresentValueByParabola(x + 1, startValue, endValue, days).value,
                              PresentValueByParabola(x + 2, startValue, endValue, days).value;
            v0 - v1 >= v1 - v2
  {
    var a := (startValue - endValue) / (days * days) as real;
    var b := -2.0 * (startValue - endValue) / days as real;
    ParabolaAt(x, startValue, endValue, days);
    ParabolaAt(x + 1, startValue, endValue, days);
    ParabolaAt(x + 2, startValue, endValue, days);
    SecondDifference(a, b, startValue, x as real, (x + 1) as real, (x + 2) as real,
      PresentValueByParabola(x, startValue, endValue, days).value,
      PresentValueByParabola(x + 1, startValue, endValue, days).value,
      PresentValueByParabola(x + 2, startValue, endValue, days).value);
  }

  /** A quadratic's second difference over unit steps is twice its leading
      coefficient. */
  lemma SecondDifference(a: real, b: real, c: real, t0: real, t1: real, t2: real, v0: real, v1: real, v2: real)
    requires t1 == t0 + 1.0 && t2 == t0 + 2.0
    requires v0 == a * (t0 * t0) + b * t0 + c
    requires v1 == a * (t1 * t1) + b * t1 + c
    requires v2 == a * (t2 * t2) + b * t2 + c
    ensures (v0 - v1) - (v1 - v2) == 2.0 * a
  {
  }

  /** Linear: the value moves from the start value towards the end value in
      proportion to the days elapsed. */
  lemma LinearRate(x: int, startValue: real, endValue: real, days: int)
    requires days > 0
    ensures PresentValueByLinear(x, startValue, endValue, days).value
         == startValue + (endValue - startValue) * (x as real / days as real)
  {
  }

  /** Linear: every day loses the same amount, the depreciable amount over
      the number of days. */
  lemma LinearConstantLoss(x: int, startValue: real, endValue: real, days: int)
    requires days > 0
    ensures PresentValueByLinear(x, startValue, endValue, days).value
            - PresentValueByLinear(x + 1, startValue, endValue, days).value
         == (startValue - endValue) / days as real
  {
    assert (x + 1) as real == x as real + 1.0;
  }

  /** The ordering of two parabola values, stated on the coefficients. */
  lemma ParabolaValuesOrder(startValue: real, endValue: real, days: int, x: real, y: real, vx: real, vy: real)
    requires startValue >= endValue && days > 0 && 0.0 <= x <= y <= days as real
    requires vx == ((startValue - endValue) / (days * days) as real) * (x * x)
                   + (-2.0 * (startValue - endValue) / days as real) * x + startValue
    requires vy == ((startValue - endValue) / (days * days) as real) * (y * y)
                   + (-2.0 * (startValue - endValue) / days as real) * y + startValue
    ensures vx >= vy
  {
    var s := startValue - endValue;
    ParabolaCoefficients(s, days);
    ParabolaOrder(s / (days * days) as real, -2.0 * s / days as real, days as real, x, y, x * x, y * y, startValue, vx, vy);
  }

  /** Parabola: for a depreciating asset (start >= end) a later day never
      has a higher value. */
  lemma {:induction false} ParabolaNonIncreasing(x: int, y: int, startValue: real, endValue: real, days: int)
    requires 0 <= x <= y <= days && days > 0
    requires startValue >= endValue
    ensures PresentValueByParabola(x, startValue, endValue, days).value
         >= PresentValueByParabola(y, startValue, endValue, days).value
  {
    ParabolaAt(x, startValue, endValue, days);
    ParabolaAt(y, startValue, endValue, days);
    ParabolaValuesOrder(startValue, endValue, days, x as real, y as real,
      PresentValueByParabola(x, startValue, endValue, days).value,
      PresentValueByParabola(y, startValue, endValue, days).value);
  }

  /** Linear: likewise. */
  lemma {:induction false} LinearNonIncreasing(x: int, y: int, startValue: real, endValue: real, days: int)
    requires 0 <= x <= y <= days && days > 0
    requires startValue >= endValue
    ensures PresentValueByLinear(x, startValue, endValue, days).value
         >= PresentValueByLinear(y, startValue, endValue, days).value
  {
    var k := -(startValue - endValue) / days as real;
    assert k <= 0.0;
    assert k * x as real >= k * y as real;
  }

  /** Both curves: the value on any day of the useful life lies between the
      residual value and the original value. */
  lemma CurveBetweenEndpoints(shape: Shape, x: int, startValue: real, endValue: real, days: int)
    requires 0 <= x <= days && days > 0
    requires startValue >= endValue
    ensures endValue <= PresentValue(shape, x, startValue, endValue, days).value <= startValue
  {
    match shape
    case Parabola =>
      ParabolaNonIncreasing(0, x, startValue, endValue, days);
      ParabolaNonIncreasing(x, days, startValue, endValue, days);
    case Linear =>
      LinearNonIncreasing(0, x, startValue, endValue, days);
      LinearNonIncreasing(x, days, startValue, endValue, days);
  }

  lemma CurveNonIncreasing(shape: Shape, x: int, y: int, startValue: real, endValue: real, days: int)
    requires 0 <= x <= y <= days && days > 0
    requires startValue >= endValue
    ensures PresentValue(shape, x, startValue, endValue, days).value
         >= PresentValue(shape, y, startValue, endValue, days).value
  {
    match shape
    case Parabola => ParabolaNonIncreasing(x, y, startValue, endValue, days);
    case Linear => LinearNonIncreasing(x, y, startValue, endValue, days);
  }

  /** A curve whose residual equals its start is flat. */
  lemma CurveFlat(shape: Shape, x: int, v: real, days: int)
    requires days != 0
    ensures PresentValue(shape, x, v, v, days) == Ok(v)
  {
  }
}
