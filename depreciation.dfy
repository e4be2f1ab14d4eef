/** The newer copy of the plugin (`auto_depreciation/depreciation.py`): the
    schedule of one depreciable posting, the three postings and the entry of
    every period, the forecast of one transaction and the plugin's entry
    point. Each period sells the lot at its previous cost, buys it back at
    the present value and books the difference as an expense. */
module Depreciation {
  import opened Results
  import opened Calendar
  import opened Rounding
  import opened Ledger
  import opened Curves
  import opened Directive
  import opened Config
  import opened Schedule

  /** Present values are rounded to cents. */
  const Cents := 100

  // ---------------------------------------------------------------------
  // cal_forecasted_depreciation_info

  /** The schedule of one posting. The method is looked up first; a useful
      life of 0 months gives an empty schedule without touching the cost;
      otherwise a posting without a cost fails, then a checkpoint past year
      9999, then a residual value that is a string. */
  function ForecastedDepreciationInfo(p: Posting, months: nat, methodName: string): (r: Result<Schedule>)
    ensures r.Ok? <==> LookupMethod(methodName).Ok?
                       && (months == 0
                           || (p.cost.Some?
                               && ShiftMonths(p.cost.value.date, months).year <= MaxYear
                               && ParseResidualValue(p.meta).Ok?))
    ensures LookupMethod(methodName).Err? ==> r == Err(KeyError(methodName))
    ensures LookupMethod(methodName).Ok? && months > 0 && p.cost.None? ==> r == Err(AttributeError)
    ensures (LookupMethod(methodName).Ok? && months > 0 && p.cost.Some?
             && ShiftMonths(p.cost.value.date, months).year > MaxYear)
            ==> r == Err(DateOutOfRange)
    ensures (LookupMethod(methodName).Ok? && months > 0 && p.cost.Some?
             && ShiftMonths(p.cost.value.date, months).year <= MaxYear
             && ParseResidualValue(p.meta).Err?)
            ==> r == Err(TypeError)
    ensures r.Ok? ==> r.value.Aligned() && |r.value.dates| == months
    ensures r.Ok? && months > 0 ==> p.cost.Some? && ParseResidualValue(p.meta).Ok?
    ensures r.Ok? && months > 0 ==>
              var cost, s := p.cost.value, r.value;
              && Checkpoints(cost.date, s.dates)
              && (forall i :: 0 <= i < months ==>
                    Ok(s.values[i])
                    == PointValue(LookupMethod(methodName).value, DayOffsets(cost.date, s.dates)[i], cost.number,
                                  ParseResidualValue(p.meta).value, Last(DayOffsets(cost.date, s.dates)), Cents))
              && s.deltas == Deltas(cost.number, s.values)
  {
    var shape :- LookupMethod(methodName);
    if months == 0 then Ok(Schedule([], [], []))
    else if p.cost.None? then Err(AttributeError)
    else
      var cost := p.cost.value;
      var dates :- CheckpointDates(cost.date, months);
      var residual :- ParseResidualValue(p.meta);
      ScheduleFromCheckpoints(shape, cost.date, dates, cost.number, residual, Cents);
      ScheduleFromDates(shape, cost.date, dates, cost.number, residual, Cents)
  }

  /** Dates and rounded values come from list comprehensions; the
      depreciation values are accumulated by a loop over the rounded
      values. */
  method CalForecastedDepreciationInfo(p: Posting, months: nat, methodName: string) returns (r: Result<Schedule>)
    ensures r == ForecastedDepreciationInfo(p, months, methodName)
  {
    var shape :- LookupMethod(methodName);
    if months == 0 {
      return Ok(Schedule([], [], []));
    }
    if p.cost.None? {
      return Err(AttributeError);
    }
    var cost := p.cost.value;
    var dates :- CheckpointDates(cost.date, months);
    var residual :- ParseResidualValue(p.meta);
    var offsets := DayOffsets(cost.date, dates);
    ScheduleFromCheckpoints(shape, cost.date, dates, cost.number, residual, Cents);
    var values := PresentValues(shape, offsets, cost.number, residual, Last(offsets), Cents).value;
    assert ScheduleFromDates(shape, cost.date, dates, cost.number, residual, Cents)
        == Ok(Schedule(dates, values, Deltas(cost.number, values)));
    var deltas := DepreciationValues(cost.number, values);
    return Ok(Schedule(dates, values, deltas));
  }

  /** A computed schedule for a useful life of at least one month: the
      checkpoints are the acquisition date plus 1..months calendar months,
      value i is the curve at checkpoint i's day offset over the span to
      the last checkpoint, rounded to cents, each period's depreciation is
      the previous value minus the present value, the last value is the
      residual value read in cents, and the depreciation adds up to the
      cost minus that residual value. */
  lemma InfoSchedule(p: Posting, months: nat, methodName: string)
    requires months > 0 && ForecastedDepreciationInfo(p, months, methodName).Ok?
    ensures p.cost.Some? && ParseResidualValue(p.meta).Ok?
    ensures var s, cost := ForecastedDepreciationInfo(p, months, methodName).value, p.cost.value;
      var offsets := DayOffsets(cost.date, s.dates);
      && Checkpoints(cost.date, s.dates)
      && (forall i :: 0 <= i < months ==>
            s.values[i] == Quantize(PresentValue(LookupMethod(methodName).value, offsets[i], cost.number,
                                                 ParseResidualValue(p.meta).value, Last(offsets)).value, Cents))
      && s.deltas == Deltas(cost.number, s.values)
      && s.values[months - 1] == ParseResidualValue(p.meta).value
      && Sum(s.deltas) == cost.number - ParseResidualValue(p.meta).value
  {
    var s, cost := ForecastedDepreciationInfo(p, months, methodName).value, p.cost.value;
    var residual := ParseResidualValue(p.meta).value;
    var shape := LookupMethod(methodName).value;
    var dates := CheckpointDates(cost.date, months).value;
    assert s == ScheduleFromDates(shape, cost.date, dates, cost.number, residual, Cents).value;
    LastValueIsResidual(shape, cost.date, dates, cost.number, residual, Cents);
    QuantizeOnGrid(residual, Cents);
    DeltasTelescope(cost.number, s.values);
  }

  /** The loop over the rounded values: each period's depreciation is the
      previous value (the original value for the first period) minus the
      present value. */
  method DepreciationValues(startValue: real, values: seq<real>) returns (deltas: seq<real>)
    ensures deltas == Deltas(startValue, values)
  {
    deltas := [];
    var i := 0;
    while i < |values|
      invariant 0 <= i <= |values|
      invariant deltas == Deltas(startValue, values[..i])
    {
      var previous := if i != 0 then values[i - 1] else startValue;
      DeltasStep(startValue, values, i);
      deltas := deltas + [previous - values[i]];
      i := i + 1;
    }
    assert values[..i] == values;
  }

  // ---------------------------------------------------------------------
  // The three postings of a period and the period's entry.

  /** Sells the lot: the units are negated, so the weight is negated too;
      only the units and the metadata change. */
  function CreateForecastedSellPosting(p: Posting): (r: Posting)
    ensures r.units == Amount(-p.units.number, p.units.currency)
    ensures Weight(r).number == -Weight(p).number && Weight(r).currency == Weight(p).currency
    ensures r.meta == StripDirective(p.meta)
    ensures r.(units := p.units, meta := p.meta) == p
  {
    p.(units := Amount(p.units.number * -1.0, p.units.currency), meta := StripDirective(p.meta))
  }

  /** Buys the lot back: the same units at a cost dated `date` and worth
      `presentValue`; a posting without a cost fails. */
  function CreateForecastedBuyPosting(p: Posting, date: CivilDate, presentValue: real): (r: Result<Posting>)
    ensures r.Ok? <==> p.cost.Some?
    ensures r.Err? ==> r.error == AttributeError
    ensures r.Ok? ==> r.value.cost == Some(p.cost.value.(date := date, number := presentValue))
    ensures r.Ok? ==> Weight(r.value) == Amount(p.units.number * presentValue, p.cost.value.currency)
    ensures r.Ok? ==> r.value.meta == StripDirective(p.meta)
    ensures r.Ok? ==> r.value.(cost := p.cost, meta := p.meta) == p
  {
    if p.cost.None? then Err(AttributeError)
    else
      var cost := p.cost.value.(date := date, number := presentValue);
      Ok(p.(cost := Some(cost), meta := StripDirective(p.meta)))
  }

  /** The expense: units times the period's depreciation, in the cost
      currency, on the expenses account and not held at cost. Any price
      annotation of the lot is kept, and then weighs the expense. */
  function CreateDepreciationExpensePosting(p: Posting, account: string, delta: real): (r: Result<Posting>)
    ensures r.Ok? <==> p.cost.Some?
    ensures r.Err? ==> r.error == AttributeError
    ensures r.Ok? ==> r.value.units == Amount(p.units.number * delta, p.cost.value.currency)
    ensures r.Ok? && p.price.None? ==> Weight(r.value) == r.value.units
    ensures r.Ok? && p.price.Some? ==>
              Weight(r.value) == Amount(p.units.number * delta * p.price.value.number, p.price.value.currency)
    ensures r.Ok? ==> r.value.account == account && r.value.cost.None?
    ensures r.Ok? ==> r.value.meta == StripDirective(p.meta)
    ensures r.Ok? ==> r.value.(account := p.account, units := p.units, cost := p.cost, meta := p.meta) == p
  {
    if p.cost.None? then Err(AttributeError)
    else
      var units := Amount(p.units.number * delta, p.cost.value.currency);
      Ok(p.(account := account, units := units, cost := None, meta := StripDirective(p.meta)))
  }

  /** The generated narration: the original narration (when not empty) and
      a dash, the plugin's name, then a colon and the lot label (when there
      is one). */
  function DepreciationNarration(narration: string, lotLabel: Option<string>): (r: string)
    ensures r == (if narration != "" then narration + "-" else "")
                 + "auto_depreciation"
                 + (if HasLabel(lotLabel) then ":" + lotLabel.value else "")
  {
    if narration != "" && HasLabel(lotLabel) then narration + "-auto_depreciation:" + lotLabel.value
    else if narration != "" then narration + "-auto_depreciation"
    else if HasLabel(lotLabel) then "auto_depreciation:" + lotLabel.value
    else "auto_depreciation"
  }

  /** The acquisition transaction with a new date, narration and postings;
      everything else (flag, payee, tags, links, metadata) is kept. */
  function CreateDepreciationEntry(txn: Transaction, date: CivilDate, lotLabel: Option<string>, postings: seq<Posting>): (r: Transaction)
    ensures r.date == date && r.postings == postings
    ensures r.narration == DepreciationNarration(txn.narration, lotLabel)
    ensures r.(date := txn.date, narration := txn.narration, postings := txn.postings) == txn
  {
    txn.(date := date, narration := DepreciationNarration(txn.narration, lotLabel), postings := postings)
  }

  // ---------------------------------------------------------------------
  // The chain of lots: period i sells lot i and buys lot i + 1.

  /** The lot held after i periods: the acquisition posting itself, then
      each period's buy posting. */
  function LotAt(p: Posting, s: Schedule, i: nat): (r: Posting)
    requires p.cost.Some? && s.Aligned() && i <= |s.dates|
    ensures r.cost.Some?
    ensures r.account == p.account && r.units == p.units && r.price == p.price && r.flag == p.flag
    ensures r.cost.value.currency == p.cost.value.currency
    ensures r.cost.value.lotLabel == p.cost.value.lotLabel
    ensures i == 0 ==> r == p
    ensures i > 0 ==> && r.cost.value.date == s.dates[i - 1]
                      && r.cost.value.number == s.values[i - 1]
                      && r.meta == StripDirective(p.meta)
    decreases i
  {
    if i == 0 then p
    else CreateForecastedBuyPosting(LotAt(p, s, i - 1), s.dates[i - 1], s.values[i - 1]).value
  }

  /** The entry of period i: sell lot i, buy lot i + 1, book the expense. */
  function PeriodEntry(txn: Transaction, p: Posting, s: Schedule, expenses: string, i: nat): (r: Transaction)
    requires p.cost.Some? && s.Aligned() && i < |s.dates|
    ensures |r.postings| == 3 && r.date == s.dates[i]
  {
    var lot := LotAt(p, s, i);
    CreateDepreciationEntry(txn, s.dates[i], p.cost.value.lotLabel,
      [ CreateForecastedSellPosting(lot),
        CreateForecastedBuyPosting(lot, s.dates[i], s.values[i]).value,
        CreateDepreciationExpensePosting(lot, expenses, s.deltas[i]).value ])
  }

  function PeriodEntries(txn: Transaction, p: Posting, s: Schedule, expenses: string): (r: seq<Transaction>)
    requires s.Aligned() && (|s.dates| > 0 ==> p.cost.Some?)
    ensures |r| == |s.dates|
    ensures forall i :: 0 <= i < |r| ==> r[i] == PeriodEntry(txn, p, s, expenses, i)
  {
    seq(|s.dates|, i requires 0 <= i < |s.dates| => PeriodEntry(txn, p, s, expenses, i))
  }

  /** One more period: the entry built from lot j is entry j, and its buy
      posting is lot j + 1. */
  lemma PeriodStep(txn: Transaction, p: Posting, s: Schedule, expenses: string, j: nat)
    requires p.cost.Some? && s.Aligned() && j < |s.dates|
    ensures var lot := LotAt(p, s, j);
      && CreateForecastedBuyPosting(lot, s.dates[j], s.values[j]).value == LotAt(p, s, j + 1)
      && PeriodEntries(txn, p, s, expenses)[..j + 1]
         == PeriodEntries(txn, p, s, expenses)[..j]
            + [CreateDepreciationEntry(txn, s.dates[j], p.cost.value.lotLabel,
                 [ CreateForecastedSellPosting(lot),
                   CreateForecastedBuyPosting(lot, s.dates[j], s.values[j]).value,
                   CreateDepreciationExpensePosting(lot, expenses, s.deltas[j]).value ])]
  {
    var es := PeriodEntries(txn, p, s, expenses);
    assert es[..j + 1] == es[..j] + [es[j]];
  }

  // ---------------------------------------------------------------------
  // create_forecasted_depreciation_entries and auto_depreciation

  /** The entries one depreciable posting generates. */
  function PostingForecast(txn: Transaction, p: Posting, expenses: string, methodName: string): (r: Result<seq<Transaction>>)
  {
    var months :- ParseUsefulLifeInMonths(p.meta);
    var s :- ForecastedDepreciationInfo(p, months, methodName);
    Ok(PeriodEntries(txn, p, s, expenses))
  }

  /** The entries the postings generate, in posting order; the first
      failure is the result. */
  function ForecastPostings(txn: Transaction, ps: seq<Posting>, assets: string, expenses: string, methodName: string): (r: Result<seq<Transaction>>)
    decreases |ps|
  {
    if ps == [] then Ok([])
    else
      var earlier :- ForecastPostings(txn, ps[..|ps| - 1], assets, expenses, methodName);
      var p := ps[|ps| - 1];
      if IsPostingADepreciation(p, assets) then
        var mine :- PostingForecast(txn, p, expenses, methodName);
        Ok(earlier + mine)
      else Ok(earlier)
  }

  /** Only a transaction can be forecast. */
  function ForecastedEntries(e: Entry, assets: string, expenses: string, methodName: string): (r: Result<seq<Transaction>>)
    ensures e.Other? ==> r == Err(TypeError)
  {
    match e
    case Other(_, _, _) => Err(TypeError)
    case Txn(t) => ForecastPostings(t, t.postings, assets, expenses, methodName)
  }

  /** Once a prefix of the postings fails, so does the whole list. */
  lemma {:induction false} PrefixFailurePersists(txn: Transaction, ps: seq<Posting>, n: nat, assets: string, expenses: string, methodName: string)
    requires n <= |ps|
    ensures ForecastPostings(txn, ps[..n], assets, expenses, methodName).Err? ==>
              ForecastPostings(txn, ps, assets, expenses, methodName)
              == ForecastPostings(txn, ps[..n], assets, expenses, methodName)
    decreases |ps|
  {
    if n < |ps| {
      var front := ps[..|ps| - 1];
      assert front[..n] == ps[..n];
      PrefixFailurePersists(txn, front, n, assets, expenses, methodName);
    } else {
      assert ps[..n] == ps;
    }
  }

  /** One more posting that is not depreciated adds nothing. */
  lemma SkipPosting(txn: Transaction, ps: seq<Posting>, i: nat, assets: string, expenses: string, methodName: string, entries: seq<Transaction>)
    requires i < |ps| && !IsPostingADepreciation(ps[i], assets)
    requires ForecastPostings(txn, ps[..i], assets, expenses, methodName) == Ok(entries)
    ensures ForecastPostings(txn, ps[..i + 1], assets, expenses, methodName) == Ok(entries)
  {
    assert ps[..i + 1][..i] == ps[..i];
  }

  /** A depreciated posting that cannot be forecast ends the forecast with
      its error. */
  lemma PostingFails(txn: Transaction, ps: seq<Posting>, i: nat, assets: string, expenses: string, methodName: string, entries: seq<Transaction>)
    requires i < |ps| && IsPostingADepreciation(ps[i], assets)
    requires ForecastPostings(txn, ps[..i], assets, expenses, methodName) == Ok(entries)
    requires PostingForecast(txn, ps[i], expenses, methodName).Err?
    ensures ForecastPostings(txn, ps, assets, expenses, methodName) == Err(PostingForecast(txn, ps[i], expenses, methodName).error)
  {
    assert ps[..i + 1][..i] == ps[..i];
    PrefixFailurePersists(txn, ps, i + 1, assets, expenses, methodName);
  }

  /** A depreciated posting with a forecast adds its entries. */
  lemma AddPosting(txn: Transaction, ps: seq<Posting>, i: nat, assets: string, expenses: string, methodName: string,
                   entries: seq<Transaction>, mine: seq<Transaction>)
    requires i < |ps| && IsPostingADepreciation(ps[i], assets)
    requires ForecastPostings(txn, ps[..i], assets, expenses, methodName) == Ok(entries)
    requires PostingForecast(txn, ps[i], expenses, methodName) == Ok(mine)
    ensures ForecastPostings(txn, ps[..i + 1], assets, expenses, methodName) == Ok(entries + mine)
  {
    assert ps[..i + 1][..i] == ps[..i];
  }

  /** The inner loop over one posting's schedule: each period sells the
      latest lot, buys it back at the present value and books the expense;
      the buy posting becomes the latest lot. */
  method DepreciationEntriesOf(txn: Transaction, p: Posting, info: Schedule, expenses: string)
    returns (entries: seq<Transaction>)
    requires info.Aligned() && (|info.dates| > 0 ==> p.cost.Some?)
    ensures entries == PeriodEntries(txn, p, info, expenses)
  {
    entries := [];
    if |info.dates| == 0 {
      return;
    }
    var latest := p;
    var j := 0;
    while j < |info.dates|
      invariant 0 <= j <= |info.dates|
      invariant latest == LotAt(p, info, j)
      invariant entries == PeriodEntries(txn, p, info, expenses)[..j]
    {
      var date, presentValue, depreciationValue := info.dates[j], info.values[j], info.deltas[j];
      var sell := CreateForecastedSellPosting(latest);
      var buy := CreateForecastedBuyPosting(latest, date, presentValue).value;
      var expense := CreateDepreciationExpensePosting(latest, expenses, depreciationValue).value;
      PeriodStep(txn, p, info, expenses, j);
      latest := buy;
      entries := entries + [CreateDepreciationEntry(txn, date, p.cost.value.lotLabel, [sell, buy, expense])];
      j := j + 1;
    }
    assert PeriodEntries(txn, p, info, expenses)[..j] == PeriodEntries(txn, p, info, expenses);
  }

  /** The body of the loop over the postings, for one depreciable posting:
      its useful life, its schedule, then the inner loop. */
  method ForecastPosting(txn: Transaction, p: Posting, expenses: string, methodName: string)
    returns (r: Result<seq<Transaction>>)
    ensures r == PostingForecast(txn, p, expenses, methodName)
  {
    var months :- ParseUsefulLifeInMonths(p.meta);
    var info :- CalForecastedDepreciationInfo(p, months, methodName);
    var entries := DepreciationEntriesOf(txn, p, info, expenses);
    return Ok(entries);
  }

  /** One pass of the loop over the postings: the entries after posting i,
      or the error that ends the transaction. */
  method ForecastStep(txn: Transaction, i: nat, assets: string, expenses: string, methodName: string,
                      entries: seq<Transaction>) returns (r: Result<seq<Transaction>>)
    requires i < |txn.postings|
    requires ForecastPostings(txn, txn.postings[..i], assets, expenses, methodName) == Ok(entries)
    ensures r.Ok? ==> ForecastPostings(txn, txn.postings[..i + 1], assets, expenses, methodName) == r
    ensures r.Err? ==> ForecastPostings(txn, txn.postings, assets, expenses, methodName) == r
  {
    var p := txn.postings[i];
    if !IsPostingADepreciation(p, assets) {
      SkipPosting(txn, txn.postings, i, assets, expenses, methodName, entries);
      return Ok(entries);
    }
    var forecast := ForecastPosting(txn, p, expenses, methodName);
    if forecast.Err? {
      PostingFails(txn, txn.postings, i, assets, expenses, methodName, entries);
      return Err(forecast.error);
    }
    AddPosting(txn, txn.postings, i, assets, expenses, methodName, entries, forecast.value);
    return Ok(entries + forecast.value);
  }

  method CreateForecastedDepreciationEntries(e: Entry, assets: string, expenses: string, methodName: string)
    returns (r: Result<seq<Transaction>>)
    ensures r == ForecastedEntries(e, assets, expenses, methodName)
  {
    if e.Other? {
      return Err(TypeError);
    }
    var txn := e.txn;
    var entries: seq<Transaction> := [];
    var i := 0;
    while i < |txn.postings|
      invariant 0 <= i <= |txn.postings|
      invariant ForecastPostings(txn, txn.postings[..i], assets, expenses, methodName) == Ok(entries)
    {
      entries :- ForecastStep(txn, i, assets, expenses, methodName, entries);
      i := i + 1;
    }
    assert txn.postings[..i] == txn.postings;
    return Ok(entries);
  }

  /** What the plugin returns: the entries, and an error list it never
      fills. */
  datatype PluginOutput = PluginOutput(entries: seq<Entry>, errors: seq<string>)

  /** The forecasts of all transactions, in entry order; other directives
      are skipped. */
  function ForecastAll(es: seq<Entry>, assets: string, expenses: string, methodName: string): (r: Result<seq<Transaction>>)
    decreases |es|
  {
    if es == [] then Ok([])
    else
      var earlier :- ForecastAll(es[..|es| - 1], assets, expenses, methodName);
      var e := es[|es| - 1];
      if e.Txn? then
        var mine :- ForecastedEntries(e, assets, expenses, methodName);
        Ok(earlier + mine)
      else Ok(earlier)
  }

  /** The plugin's result: input and forecast entries, in canonical order. */
  function AutoDepreciationResult(entries: seq<Entry>, config: Option<map<string, string>>, isValid: string -> bool): (r: Result<PluginOutput>)
    ensures var forecast := ForecastAll(entries, ReadAssetsAccountFromConfig(config, isValid),
                                        ReadExpensesAccountFromConfig(config, isValid),
                                        ReadDepreciationMethodFromConfig(config));
      && (r.Err? <==> forecast.Err?)
      && (r.Err? ==> r.error == forecast.error)
      && (r.Ok? ==> && Sorted(r.value.entries)
                    && multiset(r.value.entries) == multiset(entries + AsEntries(forecast.value))
                    && r.value.errors == [])
  {
    var assets := ReadAssetsAccountFromConfig(config, isValid);
    var expenses := ReadExpensesAccountFromConfig(config, isValid);
    var methodName := ReadDepreciationMethodFromConfig(config);
    var forecasted :- ForecastAll(entries, assets, expenses, methodName);
    Ok(PluginOutput(SortEntries(entries + AsEntries(forecasted)), []))
  }

  lemma {:induction false} AllPrefixFailurePersists(es: seq<Entry>, n: nat, assets: string, expenses: string, methodName: string)
    requires n <= |es|
    ensures ForecastAll(es[..n], assets, expenses, methodName).Err? ==>
              ForecastAll(es, assets, expenses, methodName) == ForecastAll(es[..n], assets, expenses, methodName)
    decreases |es|
  {
    if n < |es| {
      var front := es[..|es| - 1];
      assert front[..n] == es[..n];
      AllPrefixFailurePersists(front, n, assets, expenses, methodName);
    } else {
      assert es[..n] == es;
    }
  }

  method AutoDepreciation(entries: seq<Entry>, config: Option<map<string, string>>, isValid: string -> bool)
    returns (r: Result<PluginOutput>)
    ensures r == AutoDepreciationResult(entries, config, isValid)
  {
    var assets := ReadAssetsAccountFromConfig(config, isValid);
    var expenses := ReadExpensesAccountFromConfig(config, isValid);
    var methodName := ReadDepreciationMethodFromConfig(config);
    var forecasted: seq<Transaction> := [];
    var i := 0;
    while i < |entries|
      invariant 0 <= i <= |entries|
      invariant ForecastAll(entries[..i], assets, expenses, methodName) == Ok(forecasted)
    {
      var entry := entries[i];
      assert entries[..i + 1][..i] == entries[..i];
      if entry.Txn? {
        AllPrefixFailurePersists(entries, i + 1, assets, expenses, methodName);
        var mine :- CreateForecastedDepreciationEntries(entry, assets, expenses, methodName);
        forecasted := forecasted + mine;
      }
      i := i + 1;
    }
    assert entries[..i] == entries;
    var result := entries + AsEntries(forecasted);
    return Ok(PluginOutput(SortEntries(result), []));
  }

  // ---------------------------------------------------------------------
  // Properties of the generated entries.

  /** Period i + 1 sells exactly the lot period i bought. */
  lemma ChainedLots(txn: Transaction, p: Posting, s: Schedule, expenses: string, i: nat)
    requires p.cost.Some? && s.Aligned() && i + 1 < |s.dates|
    ensures PeriodEntry(txn, p, s, expenses, i + 1).postings[0]
         == CreateForecastedSellPosting(PeriodEntry(txn, p, s, expenses, i).postings[1])
  {
  }

  /** The lot sold in period i is held at the previous value of the
      schedule: the original cost first, the last rounded value after. */
  lemma LotCost(p: Posting, s: Schedule, i: nat)
    requires p.cost.Some? && s.Aligned() && i < |s.dates|
    ensures LotAt(p, s, i).cost.value.number == Previous(p.cost.value.number, s.values, i)
  {
  }

  lemma WeightTotalOfThree(a: Posting, b: Posting, c: Posting)
    ensures WeightTotal([a, b, c]) == Weight(a).number + Weight(b).number + Weight(c).number
  {
    assert [a][..0] == [];
    assert WeightTotal([a]) == Weight(a).number;
    assert [a, b][..1] == [a];
    assert WeightTotal([a, b]) == Weight(a).number + Weight(b).number;
    assert [a, b, c][..2] == [a, b];
  }

  /** Every entry generated for an acquisition without a price annotation
      balances: the sale, the repurchase and the expense are all in the
      cost currency and their weights add up to zero, because each period's
      depreciation is the previous value minus the present value. */
  lemma PeriodEntryBalanced(txn: Transaction, p: Posting, s: Schedule, expenses: string, i: nat)
    requires p.cost.Some? && p.price.None? && s.Aligned() && i < |s.dates|
    requires s.deltas == Deltas(p.cost.value.number, s.values)
    ensures Balanced(PeriodEntry(txn, p, s, expenses, i).postings)
  {
    CorrectedPeriodEntryBalanced(txn, p, s, expenses, i);
  }

  /** An acquisition written with a price annotation, `1 LENS {600.00 CNY}
      @ 600.00 CNY`, depreciated to 379.74 CNY in its first period: the
      expense posting keeps the price, so it books 220.26 CNY weighed at
      600.00 CNY each, and the entry does not balance. */
  lemma PricedEntryUnbalanced(txn: Transaction)
    ensures var p := Posting("Assets:Camera", Amount(1.0, "LENS"),
                             Some(Cost(600.0, "CNY", Date(2020, 3, 31), None)),
                             Some(Amount(600.0, "CNY")), None, map[UsefulLifeKey := Text("3m")]);
            var s := Schedule([Date(2020, 4, 30)], [379.74], [220.26]);
            && s.deltas == Deltas(p.cost.value.number, s.values)
            && !Balanced(PeriodEntry(txn, p, s, "Expenses:Depreciation", 0).postings)
  {
    var p := Posting("Assets:Camera", Amount(1.0, "LENS"),
                     Some(Cost(600.0, "CNY", Date(2020, 3, 31), None)),
                     Some(Amount(600.0, "CNY")), None, map[UsefulLifeKey := Text("3m")]);
    var s := Schedule([Date(2020, 4, 30)], [379.74], [220.26]);
    var ps := PeriodEntry(txn, p, s, "Expenses:Depreciation", 0).postings;
    assert Weight(ps[0]).number == -600.0;
    assert Weight(ps[1]).number == 379.74;
    assert Weight(ps[2]).number == 132156.0;
    WeightTotalOfThree(ps[0], ps[1], ps[2]);
    assert ps == [ps[0], ps[1], ps[2]];
  }

  /** The expense posting the balance calls for: the lot's price annotation
      is dropped as well, so the expense is weighed at its own units. */
  function CorrectedExpensePosting(p: Posting, account: string, delta: real): (r: Result<Posting>)
    ensures r.Ok? <==> p.cost.Some?
    ensures r.Ok? ==> Weight(r.value) == Amount(p.units.number * delta, p.cost.value.currency)
    ensures r.Ok? ==> r.value == CreateDepreciationExpensePosting(p, account, delta).value.(price := None)
    ensures p.price.None? ==> r == CreateDepreciationExpensePosting(p, account, delta)
  {
    var e :- CreateDepreciationExpensePosting(p, account, delta);
    Ok(e.(price := None))
  }

  /** Period i's entry with the corrected expense posting; it differs from
      the generated entry only in the expense posting's price. */
  function CorrectedPeriodEntry(txn: Transaction, p: Posting, s: Schedule, expenses: string, i: nat): (r: Transaction)
    requires p.cost.Some? && s.Aligned() && i < |s.dates|
    ensures var e := PeriodEntry(txn, p, s, expenses, i);
      r == e.(postings := e.postings[2 := e.postings[2].(price := None)])
    ensures p.price.None? ==> r == PeriodEntry(txn, p, s, expenses, i)
  {
    var lot := LotAt(p, s, i);
    CreateDepreciationEntry(txn, s.dates[i], p.cost.value.lotLabel,
      [ CreateForecastedSellPosting(lot),
        CreateForecastedBuyPosting(lot, s.dates[i], s.values[i]).value,
        CorrectedExpensePosting(lot, expenses, s.deltas[i]).value ])
  }

  /** With the correction every generated entry balances, price annotation
      or not. */
  lemma CorrectedPeriodEntryBalanced(txn: Transaction, p: Posting, s: Schedule, expenses: string, i: nat)
    requires p.cost.Some? && s.Aligned() && i < |s.dates|
    requires s.deltas == Deltas(p.cost.value.number, s.values)
    ensures Balanced(CorrectedPeriodEntry(txn, p, s, expenses, i).postings)
  {
    var ps := CorrectedPeriodEntry(txn, p, s, expenses, i).postings;
    var u := p.units.number;
    var previous := Previous(p.cost.value.number, s.values, i);
    LotCost(p, s, i);
    assert s.deltas[i] == previous - s.values[i];
    assert Weight(ps[0]).number == -(u * previous);
    assert Weight(ps[1]).number == u * s.values[i];
    assert Weight(ps[2]).number == u * (previous - s.values[i]);
    WeightTotalOfThree(ps[0], ps[1], ps[2]);
    assert ps == [ps[0], ps[1], ps[2]];
  }

  /** No depreciable posting among ps carries a price annotation. */
  predicate DepreciablesUnpriced(ps: seq<Posting>, assets: string) {
    forall k :: 0 <= k < |ps| && IsPostingADepreciation(ps[k], assets) ==> ps[k].price.None?
  }

  /** Every entry one unpriced posting generates balances. */
  lemma PostingForecastBalanced(txn: Transaction, p: Posting, expenses: string, methodName: string)
    requires p.price.None? && PostingForecast(txn, p, expenses, methodName).Ok?
    ensures forall t :: t in PostingForecast(txn, p, expenses, methodName).value ==> Balanced(t.postings)
  {
    var months := ParseUsefulLifeInMonths(p.meta).value;
    var s := ForecastedDepreciationInfo(p, months, methodName).value;
    if months > 0 {
      InfoSchedule(p, months, methodName);
      var es := PeriodEntries(txn, p, s, expenses);
      forall t | t in es ensures Balanced(t.postings) {
        var i :| 0 <= i < |es| && es[i] == t;
        PeriodEntryBalanced(txn, p, s, expenses, i);
      }
    }
  }

  /** Every entry the forecast of one transaction generates balances. */
  lemma {:induction false} PostingsForecastBalanced(txn: Transaction, ps: seq<Posting>, assets: string, expenses: string, methodName: string)
    requires DepreciablesUnpriced(ps, assets)
    requires ForecastPostings(txn, ps, assets, expenses, methodName).Ok?
    ensures forall t :: t in ForecastPostings(txn, ps, assets, expenses, methodName).value ==> Balanced(t.postings)
    decreases |ps|
  {
    if ps != [] {
      var front, p := ps[..|ps| - 1], ps[|ps| - 1];
      assert DepreciablesUnpriced(front, assets) by {
        forall k | 0 <= k < |front| && IsPostingADepreciation(front[k], assets) ensures front[k].price.None? {
          assert front[k] == ps[k];
        }
      }
      PostingsForecastBalanced(txn, front, assets, expenses, methodName);
      if IsPostingADepreciation(p, assets) {
        PostingForecastBalanced(txn, p, expenses, methodName);
      }
    }
  }

  /** Every entry a successful run of the plugin adds balances, provided no
      depreciable posting of the ledger carries a price annotation. */
  lemma {:induction false} ForecastAllBalanced(es: seq<Entry>, assets: string, expenses: string, methodName: string)
    requires forall e :: e in es && e.Txn? ==> DepreciablesUnpriced(e.txn.postings, assets)
    requires ForecastAll(es, assets, expenses, methodName).Ok?
    ensures forall t :: t in ForecastAll(es, assets, expenses, methodName).value ==> Balanced(t.postings)
    decreases |es|
  {
    if es != [] {
      var front, e := es[..|es| - 1], es[|es| - 1];
      assert forall x :: x in front ==> x in es;
      ForecastAllBalanced(front, assets, expenses, methodName);
      if e.Txn? {
        PostingsForecastBalanced(e.txn, e.txn.postings, assets, expenses, methodName);
      }
    }
  }

  /** The metadata of every generated posting has neither directive key. */
  lemma PeriodEntryStripped(txn: Transaction, p: Posting, s: Schedule, expenses: string, i: nat)
    requires p.cost.Some? && s.Aligned() && i < |s.dates|
    ensures forall q :: q in PeriodEntry(txn, p, s, expenses, i).postings ==>
              UsefulLifeKey !in q.meta && ResidualValueKey !in q.meta
  {
  }

  /** Postings none of which is depreciated forecast nothing. */
  lemma {:induction false} NothingToForecast(txn: Transaction, ps: seq<Posting>, assets: string, expenses: string, methodName: string)
    requires forall q :: q in ps ==> UsefulLifeKey !in q.meta
    ensures ForecastPostings(txn, ps, assets, expenses, methodName) == Ok([])
    decreases |ps|
  {
    if ps != [] {
      var front := ps[..|ps| - 1];
      assert forall q :: q in front ==> q in ps;
      NothingToForecast(txn, front, assets, expenses, methodName);
    }
  }

  /** The plugin never depreciates its own output: forecasting a generated
      entry, whatever the configuration, yields nothing. */
  lemma GeneratedEntryNotForecast(txn: Transaction, p: Posting, s: Schedule, expenses: string, i: nat,
                                  assets': string, expenses': string, methodName': string)
    requires p.cost.Some? && s.Aligned() && i < |s.dates|
    ensures ForecastedEntries(Txn(PeriodEntry(txn, p, s, expenses, i)), assets', expenses', methodName') == Ok([])
  {
    var t := PeriodEntry(txn, p, s, expenses, i);
    PeriodEntryStripped(txn, p, s, expenses, i);
    NothingToForecast(t, t.postings, assets', expenses', methodName');
  }

  /** Booked amounts add up entry by entry. */
  lemma {:induction false} BookedOnSum(es: seq<Transaction>, account: string, amounts: seq<real>)
    requires |es| == |amounts|
    requires forall i :: 0 <= i < |es| ==> AmountOn(es[i].postings, account) == amounts[i]
    ensures BookedOn(es, account) == Sum(amounts)
    decreases |es|
  {
    if es != [] {
      var n := |es| - 1;
      BookedOnSum(es[..n], account, amounts[..n]);
    }
  }

  /** What one generated entry books on the expenses account: the units
      times the period's depreciation. */
  lemma PeriodExpense(txn: Transaction, p: Posting, s: Schedule, expenses: string, i: nat)
    requires p.cost.Some? && s.Aligned() && i < |s.dates|
    requires p.account != expenses
    ensures AmountOn(PeriodEntry(txn, p, s, expenses, i).postings, expenses) == p.units.number * s.deltas[i]
  {
    var ps := PeriodEntry(txn, p, s, expenses, i).postings;
    var lot := LotAt(p, s, i);
    assert ps[0].account == lot.account == p.account;
    assert ps[1].account == p.account;
    assert ps[2].units.number == p.units.number * s.deltas[i] && ps[2].account == expenses;
    AmountOnOfThree(ps[0], ps[1], ps[2], expenses);
    assert ps == [ps[0], ps[1], ps[2]];
  }

  lemma AmountOnOfThree(a: Posting, b: Posting, c: Posting, account: string)
    requires a.account != account && b.account != account && c.account == account
    ensures AmountOn([a, b, c], account) == c.units.number
  {
    assert [a][..0] == [];
    assert AmountOn([a], account) == 0.0;
    assert [a, b][..1] == [a];
    assert AmountOn([a, b], account) == 0.0;
    assert [a, b, c][..2] == [a, b];
  }

  lemma ExpenseAmounts(txn: Transaction, p: Posting, s: Schedule, expenses: string)
    requires p.cost.Some? && s.Aligned()
    requires p.account != expenses
    ensures var es := PeriodEntries(txn, p, s, expenses);
      forall i :: 0 <= i < |es| ==> AmountOn(es[i].postings, expenses) == Scaled(p.units.number, s.deltas)[i]
  {
    var es := PeriodEntries(txn, p, s, expenses);
    forall i | 0 <= i < |es| ensures AmountOn(es[i].postings, expenses) == Scaled(p.units.number, s.deltas)[i] {
      PeriodExpense(txn, p, s, expenses, i);
    }
  }

  /** Over the whole useful life the expenses account is charged, entry by
      entry, the units times each period's depreciation; with
      `Schedule.DepreciationCharged` this is the units times the original
      cost minus the last present value. */
  lemma TotalDepreciation(txn: Transaction, p: Posting, s: Schedule, expenses: string)
    requires p.cost.Some? && s.Aligned()
    requires p.account != expenses
    ensures BookedOn(PeriodEntries(txn, p, s, expenses), expenses) == Sum(Scaled(p.units.number, s.deltas))
  {
    ExpenseAmounts(txn, p, s, expenses);
    BookedOnSum(PeriodEntries(txn, p, s, expenses), expenses, Scaled(p.units.number, s.deltas));
  }
}
