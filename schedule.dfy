/** The schedule both copies of the plugin compute: checkpoints one calendar
    month apart after the acquisition date, the curve sampled there and
    rounded to a quantum `1/scale`, and each period's depreciation as the
    difference of consecutive rounded values. The copies differ only in the
    scale (cents, 100, in the newer one; whole units, 1, in the older one)
    and in the order in which they fail. */
module Schedule {
  import opened Results
  import opened Calendar
  import opened Rounding
  import opened Curves

  /** Parallel lists: checkpoint dates, present values, depreciation values. */
  datatype Schedule = Schedule(dates: seq<CivilDate>, values: seq<real>, deltas: seq<real>)
  {
    predicate Aligned() {
      |dates| == |values| == |deltas|
    }
  }

  /** `[start + relativedelta(months=k) for k in range(1, months + 1)]`; a
      date past year 9999 fails, and the latest date is the first to. */
  function CheckpointDates(start: CivilDate, months: nat): (r: Result<seq<CivilDate>>)
    ensures r.Ok? <==> ShiftMonths(start, months).year <= MaxYear
    ensures r.Err? ==> r.error == DateOutOfRange
    ensures r.Ok? ==> |r.value| == months && Checkpoints(start, r.value)
    decreases months
  {
    if months == 0 then Ok([])
    else
      ShiftMonthsYearMonotone(start, months - 1, months);
      var earlier :- CheckpointDates(start, months - 1);
      var last :- AddMonths(start, months);
      Ok(earlier + [last])
  }

  /** dates[k] is k + 1 months after start. */
  predicate Checkpoints(start: Date, dates: seq<Date>)
    requires WellFormed(start)
  {
    forall k :: 0 <= k < |dates| ==> dates[k] == ShiftMonths(start, k + 1)
  }

  /** `[(x - start).days for x in dates]`. */
  function DayOffsets(start: Date, dates: seq<Date>): (r: seq<int>)
    ensures |r| == |dates|
  {
    seq(|dates|, i requires 0 <= i < |dates| => Ordinal(dates[i]) - Ordinal(start))
  }

  function Last(xs: seq<int>): int
    requires |xs| > 0
  {
    xs[|xs| - 1]
  }

  /** One checkpoint's value: the curve at `day`, rounded to the quantum. */
  function PointValue(shape: Shape, day: int, startValue: real, endValue: real, total: int, scale: int): (r: Result<real>)
    requires scale > 0
    ensures r.Err? <==> total == 0
    ensures r.Err? ==> r.error == ZeroDivisionError
    ensures r.Ok? ==> r.value == Quantize(PresentValue(shape, day, startValue, endValue, total).value, scale)
  {
    var v :- PresentValue(shape, day, startValue, endValue, total);
    Ok(Quantize(v, scale))
  }

  /** The rounded value at every offset, in order; the first failure wins. */
  function PresentValues(shape: Shape, offsets: seq<int>, startValue: real, endValue: real, total: int, scale: int): (r: Result<seq<real>>)
    requires scale > 0
    ensures r.Err? <==> |offsets| > 0 && total == 0
    ensures r.Err? ==> r.error == ZeroDivisionError
    ensures r.Ok? ==> |r.value| == |offsets|
    ensures r.Ok? ==> forall i :: 0 <= i < |offsets| ==>
              Ok(r.value[i]) == PointValue(shape, offsets[i], startValue, endValue, total, scale)
    decreases |offsets|
  {
    if offsets == [] then Ok([])
    else
      var n := |offsets| - 1;
      var earlier :- PresentValues(shape, offsets[..n], startValue, endValue, total, scale);
      var v :- PointValue(shape, offsets[n], startValue, endValue, total, scale);
      Ok(earlier + [v])
  }

  /** The value the period before checkpoint i ends at: the original value
      for the first checkpoint, the previous rounded value afterwards. */
  function Previous(startValue: real, values: seq<real>, i: int): real
    requires 0 <= i < |values|
  {
    if i == 0 then startValue else values[i - 1]
  }

  /** Each period's depreciation: previous value minus present value. */
  function Deltas(startValue: real, values: seq<real>): (r: seq<real>)
    ensures |r| == |values|
  {
    seq(|values|, i requires 0 <= i < |values| => Previous(startValue, values, i) - values[i])
  }

  function Sum(xs: seq<real>): real
    decreases |xs|
  {
    if xs == [] then 0.0 else Sum(xs[..|xs| - 1]) + xs[|xs| - 1]
  }

  /** Every element multiplied by u. */
  function Scaled(u: real, xs: seq<real>): (r: seq<real>)
    ensures |r| == |xs|
    ensures forall i :: 0 <= i < |xs| ==> r[i] == u * xs[i]
  {
    seq(|xs|, i requires 0 <= i < |xs| => u * xs[i])
  }

  /** Multiplication distributes over the sum. */
  lemma {:induction false} SumScaled(u: real, xs: seq<real>)
    ensures Sum(Scaled(u, xs)) == u * Sum(xs)
    decreases |xs|
  {
    if xs != [] {
      var n := |xs| - 1;
      SumScaled(u, xs[..n]);
      var ys := Scaled(u, xs);
      assert forall i :: 0 <= i < n ==> ys[..n][i] == u * xs[..n][i];
      assert ys[..n] == Scaled(u, xs[..n]);
    }
  }

  /** Everything after the dates: offsets, total span (the last offset),
      values and deltas. Value i is the curve at offset i over the whole
      span, rounded; only a span of 0 days fails. */
  function ScheduleFromDates(shape: Shape, start: Date, dates: seq<CivilDate>, startValue: real, endValue: real, scale: int): (r: Result<Schedule>)
    requires scale > 0
    ensures r.Err? <==> |dates| > 0 && Last(DayOffsets(start, dates)) == 0
    ensures r.Err? ==> r.error == ZeroDivisionError
    ensures r.Ok? ==> r.value.Aligned() && r.value.dates == dates
    ensures r.Ok? ==> forall i :: 0 <= i < |dates| ==>
              Ok(r.value.values[i])
              == PointValue(shape, DayOffsets(start, dates)[i], startValue, endValue, Last(DayOffsets(start, dates)), scale)
    ensures r.Ok? ==> r.value.deltas == Deltas(startValue, r.value.values)
  {
    var offsets := DayOffsets(start, dates);
    var total := if |offsets| > 0 then Last(offsets) else 0;
    var values :- PresentValues(shape, offsets, startValue, endValue, total, scale);
    Ok(Schedule(dates, values, Deltas(startValue, values)))
  }

  // ---------------------------------------------------------------------
  // Properties of a schedule built on checkpoint dates.

  /** Checkpoint dates strictly increase, and so do their day offsets; every
      offset is positive and at most the total span. */
  lemma CheckpointsIncrease(start: Date, dates: seq<Date>, i: int, j: int)
    requires WellFormed(start) && Checkpoints(start, dates)
    requires 0 <= i < j < |dates|
    ensures Ordinal(dates[i]) < Ordinal(dates[j])
    ensures 0 < DayOffsets(start, dates)[i] < DayOffsets(start, dates)[j]
  {
    var offsets := DayOffsets(start, dates);
    assert dates[i] == ShiftMonths(start, i + 1) && dates[j] == ShiftMonths(start, j + 1);
    ShiftMonthsIncreasing(start, i + 1, j + 1);
    ShiftMonthsAfter(start, i + 1);
    assert offsets[i] == Ordinal(dates[i]) - Ordinal(start);
    assert offsets[j] == Ordinal(dates[j]) - Ordinal(start);
  }

  lemma OffsetsInSpan(start: Date, dates: seq<Date>, i: int)
    requires WellFormed(start) && Checkpoints(start, dates)
    requires 0 <= i < |dates|
    ensures 0 < DayOffsets(start, dates)[i] <= Last(DayOffsets(start, dates))
  {
    var offsets := DayOffsets(start, dates);
    assert dates[i] == ShiftMonths(start, i + 1);
    ShiftMonthsAfter(start, i + 1);
    assert offsets[i] == Ordinal(dates[i]) - Ordinal(start);
    if i < |dates| - 1 {
      CheckpointsIncrease(start, dates, i, |dates| - 1);
    }
  }

  /** On checkpoint dates the schedule is always computed. */
  lemma ScheduleFromCheckpoints(shape: Shape, start: Date, dates: seq<CivilDate>, startValue: real, endValue: real, scale: int)
    requires scale > 0 && WellFormed(start) && Checkpoints(start, dates)
    ensures ScheduleFromDates(shape, start, dates, startValue, endValue, scale).Ok?
  {
    if |dates| > 0 {
      OffsetsInSpan(start, dates, 0);
    }
  }

  /** The last checkpoint is worth the residual value, rounded. */
  lemma {:induction false} LastValueIsResidual(shape: Shape, start: Date, dates: seq<CivilDate>, startValue: real, endValue: real, scale: int)
    requires scale > 0 && WellFormed(start) && Checkpoints(start, dates) && |dates| > 0
    ensures var r := ScheduleFromDates(shape, start, dates, startValue, endValue, scale);
      r.Ok? && r.value.values[|dates| - 1] == Quantize(endValue, scale)
  {
    ScheduleFromCheckpoints(shape, start, dates, startValue, endValue, scale);
  }

  lemma {:induction false} DeltasPrefix(startValue: real, values: seq<real>, n: nat)
    requires n <= |values|
    ensures Deltas(startValue, values[..n]) == Deltas(startValue, values)[..n]
  {
  }

  /** Deltas of a longer prefix: one more period at the end. */
  lemma DeltasStep(startValue: real, values: seq<real>, i: nat)
    requires i < |values|
    ensures Deltas(startValue, values[..i + 1])
         == Deltas(startValue, values[..i]) + [Previous(startValue, values, i) - values[i]]
  {
    var longer, shorter := Deltas(startValue, values[..i + 1]), Deltas(startValue, values[..i]);
    forall k | 0 <= k < i ensures longer[k] == shorter[k] {
      assert values[..i + 1][k] == values[..i][k];
    }
  }

  /** Telescoping: the periods' depreciation adds up to the original value
      minus the last present value, exactly. */
  lemma {:induction false} DeltasTelescope(startValue: real, values: seq<real>)
    ensures Sum(Deltas(startValue, values))
         == if values == [] then 0.0 else startValue - values[|values| - 1]
    decreases |values|
  {
    if values != [] {
      var n := |values| - 1;
      DeltasPrefix(startValue, values, n);
      assert Deltas(startValue, values)[..n] == Deltas(startValue, values[..n]);
      DeltasTelescope(startValue, values[..n]);
    }
  }

  /** For a depreciating asset (start >= residual) the rounded values never
      rise, every value lies between the rounded residual and the rounded
      start, and every period's depreciation after the first is
      non-negative; so is the first when the start is itself on the grid. */
  lemma {:induction false} ScheduleMonotone(shape: Shape, start: Date, dates: seq<CivilDate>, startValue: real, endValue: real, scale: int)
    requires scale > 0 && WellFormed(start) && Checkpoints(start, dates)
    requires startValue >= endValue
    ensures var r := ScheduleFromDates(shape, start, dates, startValue, endValue, scale);
      && r.Ok?
      && (forall i, j :: 0 <= i < j < |dates| ==> r.value.values[i] >= r.value.values[j])
      && (forall i :: 0 <= i < |dates| ==>
            Quantize(endValue, scale) <= r.value.values[i] <= Quantize(startValue, scale))
      && (forall i :: 1 <= i < |dates| ==> r.value.deltas[i] >= 0.0)
      && (OnGrid(startValue, scale) ==> forall i :: 0 <= i < |dates| ==> r.value.deltas[i] >= 0.0)
  {
    ScheduleFromCheckpoints(shape, start, dates, startValue, endValue, scale);
    var r := ScheduleFromDates(shape, start, dates, startValue, endValue, scale);
    var offsets := DayOffsets(start, dates);
    if |dates| > 0 {
      var total := Last(offsets);
      var vs := r.value.values;
      assert forall i :: 0 <= i < |dates| ==>
        vs[i] == Quantize(PresentValue(shape, offsets[i], startValue, endValue, total).value, scale);
      forall i, j | 0 <= i < j < |dates| ensures vs[i] >= vs[j] {
        CheckpointsIncrease(start, dates, i, j);
        OffsetsInSpan(start, dates, j);
        CurveNonIncreasing(shape, offsets[i], offsets[j], startValue, endValue, total);
        QuantizeMonotone(PresentValue(shape, offsets[j], startValue, endValue, total).value,
                         PresentValue(shape, offsets[i], startValue, endValue, total).value, scale);
      }
      forall i | 0 <= i < |dates|
        ensures Quantize(endValue, scale) <= vs[i] <= Quantize(startValue, scale)
      {
        OffsetsInSpan(start, dates, i);
        var v := PresentValue(shape, offsets[i], startValue, endValue, total).value;
        CurveBetweenEndpoints(shape, offsets[i], startValue, endValue, total);
        QuantizeMonotone(endValue, v, scale);
        QuantizeMonotone(v, startValue, scale);
      }
      if OnGrid(startValue, scale) {
        QuantizeOnGrid(startValue, scale);
      }
    }
  }

  /** A residual equal to an on-grid original value gives a flat schedule:
      every value is the original value and nothing is depreciated. */
  lemma {:induction false} FlatSchedule(shape: Shape, start: Date, dates: seq<CivilDate>, v: real, scale: int)
    requires scale > 0 && WellFormed(start) && Checkpoints(start, dates)
    requires OnGrid(v, scale)
    ensures var r := ScheduleFromDates(shape, start, dates, v, v, scale);
      && r.Ok?
      && (forall i :: 0 <= i < |dates| ==> r.value.values[i] == v && r.value.deltas[i] == 0.0)
  {
    ScheduleFromCheckpoints(shape, start, dates, v, v, scale);
    var r := ScheduleFromDates(shape, start, dates, v, v, scale);
    var offsets := DayOffsets(start, dates);
    if |dates| > 0 {
      var total := Last(offsets);
      OffsetsInSpan(start, dates, 0);
      QuantizeOnGrid(v, scale);
      forall i | 0 <= i < |dates| ensures r.value.values[i] == v {
        CurveFlat(shape, offsets[i], v, total);
      }
    }
  }

  /** What u units of the asset are charged over the schedule: u times the
      start value minus the last present value. */
  lemma DepreciationCharged(u: real, startValue: real, values: seq<real>)
    requires values != []
    ensures Sum(Scaled(u, Deltas(startValue, values))) == u * (startValue - values[|values| - 1])
  {
    SumScaled(u, Deltas(startValue, values));
    DeltasTelescope(startValue, values);
  }

  /** The example's checkpoints are 30, 61 and 91 days after 2020-03-31. */
  lemma ExampleOffsets()
    ensures DayOffsets(Date(2020, 3, 31), [Date(2020, 4, 30), Date(2020, 5, 31), Date(2020, 6, 30)]) == [30, 61, 91]
  {
    var start, dates := Date(2020, 3, 31), [Date(2020, 4, 30), Date(2020, 5, 31), Date(2020, 6, 30)];
    var offsets := DayOffsets(start, dates);
    var o := Ordinal(start);
    assert o == DaysBeforeYear(2020) + 91;
    assert offsets[0] == Ordinal(dates[0]) - o == DaysBeforeYear(2020) + 121 - o;
    assert offsets[1] == Ordinal(dates[1]) - o == DaysBeforeYear(2020) + 152 - o;
    assert offsets[2] == Ordinal(dates[2]) - o == DaysBeforeYear(2020) + 182 - o;
  }

  /** There the parabola from 600 to 200 over 91 days is worth 3144600/8281
      (379.7367...), 2016200/8281 (243.4730...) and 200. */
  lemma ExampleCurve()
    ensures PresentValue(Parabola, 30, 600.0, 200.0, 91) == Ok(3144600.0 / 8281.0)
    ensures PresentValue(Parabola, 61, 600.0, 200.0, 91) == Ok(2016200.0 / 8281.0)
    ensures PresentValue(Parabola, 91, 600.0, 200.0, 91) == Ok(200.0)
  {
    ParabolaAt(30, 600.0, 200.0, 91);
    ParabolaAt(61, 600.0, 200.0, 91);
  }

  /** The schedule built on the example's checkpoints from rounded values. */
  lemma ExampleSchedule(scale: int, values: seq<real>, deltas: seq<real>)
    requires scale > 0 && |values| == 3
    requires values[0] == Quantize(3144600.0 / 8281.0, scale)
    requires values[1] == Quantize(2016200.0 / 8281.0, scale)
    requires values[2] == Quantize(200.0, scale)
    requires deltas == [600.0 - values[0], values[0] - values[1], values[1] - values[2]]
    ensures var dates: seq<CivilDate> := [Date(2020, 4, 30), Date(2020, 5, 31), Date(2020, 6, 30)];
      ScheduleFromDates(Parabola, Date(2020, 3, 31), dates, 600.0, 200.0, scale) == Ok(Schedule(dates, values, deltas))
  {
    var dates: seq<CivilDate> := [Date(2020, 4, 30), Date(2020, 5, 31), Date(2020, 6, 30)];
    ExampleOffsets();
    ExampleCurve();
    var offsets := DayOffsets(Date(2020, 3, 31), dates);
    var r := PresentValues(Parabola, offsets, 600.0, 200.0, 91, scale).value;
    assert r == values by {
      assert forall i :: 0 <= i < 3 ==> Ok(r[i]) == PointValue(Parabola, offsets[i], 600.0, 200.0, 91, scale);
    }
    assert Deltas(600.0, values) == deltas;
  }

  /** Acquired on 2020-03-31 at 600 with a residual value of 200 over three
      months on the parabola: to cents 379.74, 243.47, 200 (depreciation
      220.26, 136.27, 43.47). */
  lemma ParabolaExampleCents()
    ensures var dates: seq<CivilDate> := [Date(2020, 4, 30), Date(2020, 5, 31), Date(2020, 6, 30)];
      ScheduleFromDates(Parabola, Date(2020, 3, 31), dates, 600.0, 200.0, 100)
      == Ok(Schedule(dates, [379.74, 243.47, 200.0], [220.26, 136.27, 43.47]))
  {
    assert RoundHalfEven(3144600.0 / 8281.0 * 100.0) == 37974;
    assert RoundHalfEven(2016200.0 / 8281.0 * 100.0) == 24347;
    QuantizeOnGrid(200.0, 100);
    ExampleSchedule(100, [379.74, 243.47, 200.0], [220.26, 136.27, 43.47]);
  }

  /** The same to whole units: 380, 243, 200 (depreciation 220, 137, 43). */
  lemma ParabolaExampleUnits()
    ensures var dates: seq<CivilDate> := [Date(2020, 4, 30), Date(2020, 5, 31), Date(2020, 6, 30)];
      ScheduleFromDates(Parabola, Date(2020, 3, 31), dates, 600.0, 200.0, 1)
      == Ok(Schedule(dates, [380.0, 243.0, 200.0], [220.0, 137.0, 43.0]))
  {
    assert RoundHalfEven(3144600.0 / 8281.0) == 380;
    assert RoundHalfEven(2016200.0 / 8281.0) == 243;
    QuantizeOnGrid(200.0, 1);
    ExampleSchedule(1, [380.0, 243.0, 200.0], [220.0, 137.0, 43.0]);
  }
}
