/** The older copy of the plugin (`auto_depreciation.py`): configuration,
    parsing and the driver inline in one function, present values rounded to
    whole units, and posting helpers that strip the directive keys with a
    `try`/`del` that stops at the first missing key. Each period is built the
    same way as in the newer copy, which the agreement lemmas below prove. */
module Legacy {
  import opened Results
  import opened Calendar
  import opened Rounding
  import opened Ledger
  import opened Curves
  import opened Directive
  import opened Config
  import opened Schedule
  import Depreciation

  /** `round(...)` with no digits: present values are whole units. */
  const Units := 1

  // ---------------------------------------------------------------------
  // Configuration, read inline.

  datatype Settings = Settings(assets: string, expenses: string, methodName: string)

  /** A missing or invalid account falls back to the default account; a
      missing method falls back to "parabola" and is not validated. Both
      copies resolve the settings alike. */
  function ReadSettings(config: Option<map<string, string>>, isValid: string -> bool): (r: Settings)
    ensures var d := ConfigDict(config);
      && (if "assets" in d && isValid(d["assets"]) then r.assets == d["assets"] else r.assets == DefaultAssetsAccount)
      && (if "expenses" in d && isValid(d["expenses"]) then r.expenses == d["expenses"] else r.expenses == DefaultExpensesAccount)
      && (if "method" in d then r.methodName == d["method"] else r.methodName == DefaultMethod)
    ensures r == Settings(ReadAssetsAccountFromConfig(config, isValid),
                          ReadExpensesAccountFromConfig(config, isValid),
                          ReadDepreciationMethodFromConfig(config))
  {
    var d := ConfigDict(config);
    var assets := if "assets" in d then d["assets"] else DefaultAssetsAccount;
    var expenses := if "expenses" in d then d["expenses"] else DefaultExpensesAccount;
    var methodName := if "method" in d then d["method"] else DefaultMethod;
    Settings(if isValid(assets) then assets else DefaultAssetsAccount,
             if isValid(expenses) then expenses else DefaultExpensesAccount,
             methodName)
  }

  // ---------------------------------------------------------------------
  // depreciation_list

  /** The method is looked up first, then the dates are computed; with no
      dates at all `days_list[-1]` fails. The last value is the residual
      value rounded to a whole unit. */
  function DepreciationSchedule(startValue: real, endValue: real, buyDate: CivilDate, months: nat, methodName: string): (r: Result<Schedule>)
    ensures r.Ok? <==> LookupMethod(methodName).Ok? && months > 0 && ShiftMonths(buyDate, months).year <= MaxYear
    ensures LookupMethod(methodName).Err? ==> r == Err(KeyError(methodName))
    ensures LookupMethod(methodName).Ok? && months == 0 ==> r == Err(IndexError)
    ensures r.Err? && LookupMethod(methodName).Ok? && months > 0 ==> r.error == DateOutOfRange
    ensures r.Ok? ==> && r.value.Aligned() && |r.value.dates| == months
                      && Checkpoints(buyDate, r.value.dates)
                      && r.value.deltas == Deltas(startValue, r.value.values)
                      && r.value.values[months - 1] == Quantize(endValue, Units)
    ensures r.Ok? ==> forall i :: 0 <= i < months ==>
              Ok(r.value.values[i])
              == PointValue(LookupMethod(methodName).value, DayOffsets(buyDate, r.value.dates)[i], startValue, endValue,
                            Last(DayOffsets(buyDate, r.value.dates)), Units)
  {
    var shape :- LookupMethod(methodName);
    var dates :- CheckpointDates(buyDate, months);
    if dates == [] then Err(IndexError)
    else
      LastValueIsResidual(shape, buyDate, dates, startValue, endValue, Units);
      ScheduleFromDates(shape, buyDate, dates, startValue, endValue, Units)
  }

  /** The dates, offsets and values come from list comprehensions; the
      depreciation values from the same loop as in the newer copy. */
  method DepreciationList(startValue: real, endValue: real, buyDate: CivilDate, months: nat, methodName: string)
    returns (r: Result<Schedule>)
    ensures r == DepreciationSchedule(startValue, endValue, buyDate, months, methodName)
  {
    var shape :- LookupMethod(methodName);
    var dates :- CheckpointDates(buyDate, months);
    var offsets := DayOffsets(buyDate, dates);
    if |offsets| == 0 {
      return Err(IndexError);
    }
    ScheduleFromCheckpoints(shape, buyDate, dates, startValue, endValue, Units);
    var values := PresentValues(shape, offsets, startValue, endValue, Last(offsets), Units).value;
    assert ScheduleFromDates(shape, buyDate, dates, startValue, endValue, Units)
        == Ok(Schedule(dates, values, Deltas(startValue, values)));
    var deltas := Depreciation.DepreciationValues(startValue, values);
    return Ok(Schedule(dates, values, deltas));
  }

  // ---------------------------------------------------------------------
  // The posting helpers and the entry. Where the two strip rules agree the
  // helpers build exactly the newer copy's postings.

  function PostingToSell(p: Posting): (r: Posting)
    ensures r.units == Amount(-p.units.number, p.units.currency)
    ensures Weight(r).number == -Weight(p).number && Weight(r).currency == Weight(p).currency
    ensures r.meta == LegacyStripDirective(p.meta)
    ensures r.(units := p.units, meta := p.meta) == p
    ensures LegacyStripDirective(p.meta) == StripDirective(p.meta) ==> r == Depreciation.CreateForecastedSellPosting(p)
  {
    p.(units := Amount(p.units.number * -1.0, p.units.currency), meta := LegacyStripDirective(p.meta))
  }

  function PostingToBuy(p: Posting, date: CivilDate, value: real): (r: Result<Posting>)
    ensures r.Ok? <==> p.cost.Some?
    ensures r.Err? ==> r.error == AttributeError
    ensures r.Ok? ==> r.value.cost == Some(p.cost.value.(date := date, number := value))
    ensures r.Ok? ==> r.value.meta == LegacyStripDirective(p.meta)
    ensures r.Ok? ==> r.value.(cost := p.cost, meta := p.meta) == p
    ensures LegacyStripDirective(p.meta) == StripDirective(p.meta) ==> r == Depreciation.CreateForecastedBuyPosting(p, date, value)
  {
    if p.cost.None? then Err(AttributeError)
    else
      var cost := p.cost.value.(date := date, number := value);
      Ok(p.(cost := Some(cost), meta := LegacyStripDirective(p.meta)))
  }

  /** The currency is passed in (the acquisition's cost currency), so the
      helper needs no cost. */
  function PostingToExpense(p: Posting, account: string, value: real, currency: string): (r: Posting)
    ensures r.units == Amount(p.units.number * value, currency)
    ensures p.price.None? ==> Weight(r) == r.units
    ensures p.price.Some? ==> Weight(r) == Amount(p.units.number * value * p.price.value.number, p.price.value.currency)
    ensures r.account == account && r.cost.None?
    ensures r.meta == LegacyStripDirective(p.meta)
    ensures r.(account := p.account, units := p.units, cost := p.cost, meta := p.meta) == p
    ensures p.cost.Some? && currency == p.cost.value.currency && LegacyStripDirective(p.meta) == StripDirective(p.meta)
            ==> Depreciation.CreateDepreciationExpensePosting(p, account, value) == Ok(r)
  {
    var units := Amount(p.units.number * value, currency);
    var r := p.(account := account, units := units, cost := None, meta := LegacyStripDirective(p.meta));
    assert p.cost.Some? && currency == p.cost.value.currency && LegacyStripDirective(p.meta) == StripDirective(p.meta)
           ==> Depreciation.CreateDepreciationExpensePosting(p, account, value).value == r;
    r
  }

  /** `_auto_entry`: the same four narrations as the newer copy, and only
      date, narration and postings replaced. */
  function AutoEntry(txn: Transaction, date: CivilDate, lotLabel: Option<string>, postings: seq<Posting>): (r: Transaction)
    ensures r == Depreciation.CreateDepreciationEntry(txn, date, lotLabel, postings)
  {
    var narration :=
      if txn.narration != "" && HasLabel(lotLabel) then txn.narration + "-auto_depreciation:" + lotLabel.value
      else if txn.narration != "" then txn.narration + "-auto_depreciation"
      else if HasLabel(lotLabel) then "auto_depreciation:" + lotLabel.value
      else "auto_depreciation";
    txn.(date := date, narration := narration, postings := postings)
  }

  // ---------------------------------------------------------------------
  // The chain of lots threaded through `latest_pos`.

  function LotAt(p: Posting, s: Schedule, i: nat): (r: Posting)
    requires p.cost.Some? && s.Aligned() && i <= |s.dates|
    ensures r.cost.Some?
    ensures r.account == p.account && r.units == p.units
    ensures r.cost.value.currency == p.cost.value.currency
    ensures r.cost.value.lotLabel == p.cost.value.lotLabel
    ensures i == 0 ==> r == p
    ensures i > 0 ==> && r.cost.value.date == s.dates[i - 1]
                      && r.cost.value.number == s.values[i - 1]
                      && r.meta == LegacyStripDirective(p.meta)
    ensures LegacyStripDirective(p.meta) == StripDirective(p.meta) ==> r == Depreciation.LotAt(p, s, i)
    decreases i
  {
    if i == 0 then p
    else PostingToBuy(LotAt(p, s, i - 1), s.dates[i - 1], s.values[i - 1]).value
  }

  function PeriodEntry(txn: Transaction, p: Posting, s: Schedule, expenses: string, i: nat): (r: Transaction)
    requires p.cost.Some? && s.Aligned() && i < |s.dates|
    ensures LegacyStripDirective(p.meta) == StripDirective(p.meta) ==> r == Depreciation.PeriodEntry(txn, p, s, expenses, i)
  {
    var lot := LotAt(p, s, i);
    AutoEntry(txn, s.dates[i], p.cost.value.lotLabel,
      [ PostingToSell(lot),
        PostingToBuy(lot, s.dates[i], s.values[i]).value,
        PostingToExpense(lot, expenses, s.deltas[i], p.cost.value.currency) ])
  }

  function PeriodEntries(txn: Transaction, p: Posting, s: Schedule, expenses: string): (r: seq<Transaction>)
    requires s.Aligned() && (|s.dates| > 0 ==> p.cost.Some?)
    ensures |r| == |s.dates|
    ensures forall i :: 0 <= i < |r| ==> r[i] == PeriodEntry(txn, p, s, expenses, i)
  {
    seq(|s.dates|, i requires 0 <= i < |s.dates| => PeriodEntry(txn, p, s, expenses, i))
  }

  /** For a posting that carries `useful_life` (every posting the plugin
      depreciates) the older copy generates the newer copy's entries. */
  lemma PeriodEntriesAgree(txn: Transaction, p: Posting, s: Schedule, expenses: string)
    requires s.Aligned() && (|s.dates| > 0 ==> p.cost.Some?)
    requires UsefulLifeKey in p.meta
    ensures PeriodEntries(txn, p, s, expenses) == Depreciation.PeriodEntries(txn, p, s, expenses)
  {
    var mine, theirs := PeriodEntries(txn, p, s, expenses), Depreciation.PeriodEntries(txn, p, s, expenses);
    forall i | 0 <= i < |mine| ensures mine[i] == theirs[i] {
      assert mine[i] == PeriodEntry(txn, p, s, expenses, i);
    }
  }

  lemma PeriodStep(txn: Transaction, p: Posting, s: Schedule, expenses: string, j: nat)
    requires p.cost.Some? && s.Aligned() && j < |s.dates|
    ensures var lot := LotAt(p, s, j);
      && PostingToBuy(lot, s.dates[j], s.values[j]).value == LotAt(p, s, j + 1)
      && PeriodEntries(txn, p, s, expenses)[..j + 1]
         == PeriodEntries(txn, p, s, expenses)[..j]
            + [AutoEntry(txn, s.dates[j], p.cost.value.lotLabel,
                 [ PostingToSell(lot),
                   PostingToBuy(lot, s.dates[j], s.values[j]).value,
                   PostingToExpense(lot, expenses, s.deltas[j], p.cost.value.currency) ])]
  {
    var es := PeriodEntries(txn, p, s, expenses);
    assert es[..j + 1] == es[..j] + [es[j]];
  }

  // ---------------------------------------------------------------------
  // The driver.

  /** One depreciable posting, in the order the inline code evaluates it:
      the cost (`cost.currency` of None), the residual value, the useful
      life, then `depreciation_list`. */
  function PostingForecast(txn: Transaction, p: Posting, expenses: string, methodName: string): (r: Result<seq<Transaction>>)
    ensures p.cost.None? ==> r == Err(AttributeError)
    ensures p.cost.Some? && LegacyResidualValue(p.meta).Err? ==> r == Err(ValueError)
    ensures p.cost.Some? && LegacyResidualValue(p.meta).Ok? && LegacyParseUsefulLife(p.meta).Err?
            ==> r == Err(LegacyParseUsefulLife(p.meta).error)
    ensures p.cost.Some? && LegacyResidualValue(p.meta).Ok? && LegacyParseUsefulLife(p.meta) == Ok(0)
            ==> r == Err(if LookupMethod(methodName).Ok? then IndexError else KeyError(methodName))
    ensures r.Ok? ==> p.cost.Some? && LegacyParseUsefulLife(p.meta).Ok? && LegacyParseUsefulLife(p.meta).value > 0
                      && |r.value| == LegacyParseUsefulLife(p.meta).value
    ensures p.cost.Some? && LegacyResidualValue(p.meta).Ok? && LegacyParseUsefulLife(p.meta).Ok? ==>
              var s := DepreciationSchedule(p.cost.value.number, LegacyResidualValue(p.meta).value, p.cost.value.date,
                                            LegacyParseUsefulLife(p.meta).value, methodName);
              (r.Ok? <==> s.Ok?) && (s.Err? ==> r == Err(s.error))
  {
    if p.cost.None? then Err(AttributeError)
    else
      var cost := p.cost.value;
      var endValue :- LegacyResidualValue(p.meta);
      var months :- LegacyParseUsefulLife(p.meta);
      var s :- DepreciationSchedule(cost.number, endValue, cost.date, months, methodName);
      Ok(PeriodEntries(txn, p, s, expenses))
  }

  /** The schedule a successful forecast of p follows. */
  function ScheduleOf(p: Posting, methodName: string): Schedule
    requires p.cost.Some? && LegacyResidualValue(p.meta).Ok? && LegacyParseUsefulLife(p.meta).Ok?
    requires DepreciationSchedule(p.cost.value.number, LegacyResidualValue(p.meta).value, p.cost.value.date,
                                  LegacyParseUsefulLife(p.meta).value, methodName).Ok?
  {
    DepreciationSchedule(p.cost.value.number, LegacyResidualValue(p.meta).value, p.cost.value.date,
                         LegacyParseUsefulLife(p.meta).value, methodName).value
  }

  /** A successful forecast is the newer copy's chain of entries on the
      whole-unit schedule, so every property proved of that chain (lots
      chained, entries balanced, directive keys stripped, the expenses
      total) holds of the older copy too. */
  lemma ForecastIsChain(txn: Transaction, p: Posting, expenses: string, methodName: string)
    requires UsefulLifeKey in p.meta
    requires PostingForecast(txn, p, expenses, methodName).Ok?
    ensures p.cost.Some? && LegacyResidualValue(p.meta).Ok? && LegacyParseUsefulLife(p.meta).Ok?
    ensures DepreciationSchedule(p.cost.value.number, LegacyResidualValue(p.meta).value, p.cost.value.date,
                                 LegacyParseUsefulLife(p.meta).value, methodName).Ok?
    ensures var s := ScheduleOf(p, methodName);
      && s.deltas == Deltas(p.cost.value.number, s.values)
      && PostingForecast(txn, p, expenses, methodName) == Ok(Depreciation.PeriodEntries(txn, p, s, expenses))
  {
    PeriodEntriesAgree(txn, p, ScheduleOf(p, methodName), expenses);
  }

  /** Every generated entry balances exactly. */
  lemma ForecastBalanced(txn: Transaction, p: Posting, expenses: string, methodName: string, i: nat)
    requires UsefulLifeKey in p.meta && p.price.None?
    requires PostingForecast(txn, p, expenses, methodName).Ok?
    requires i < |PostingForecast(txn, p, expenses, methodName).value|
    ensures Balanced(PostingForecast(txn, p, expenses, methodName).value[i].postings)
  {
    ForecastIsChain(txn, p, expenses, methodName);
    var s := ScheduleOf(p, methodName);
    Depreciation.PeriodEntryBalanced(txn, p, s, expenses, i);
  }

  function ForecastPostings(txn: Transaction, ps: seq<Posting>, assets: string, expenses: string, methodName: string): (r: Result<seq<Transaction>>)
    decreases |ps|
  {
    if ps == [] then Ok([])
    else
      var earlier :- ForecastPostings(txn, ps[..|ps| - 1], assets, expenses, methodName);
      var p := ps[|ps| - 1];
      if IsPostingADepreciation(p, assets) then
        var mine :- PostingForecast(txn, p, expenses, methodName);
        Ok(earlier + mine)
      else Ok(earlier)
  }

  function ForecastAll(es: seq<Entry>, assets: string, expenses: string, methodName: string): (r: Result<seq<Transaction>>)
    decreases |es|
  {
    if es == [] then Ok([])
    else
      var earlier :- ForecastAll(es[..|es| - 1], assets, expenses, methodName);
      var e := es[|es| - 1];
      if e.Txn? then
        var mine :- ForecastPostings(e.txn, e.txn.postings, assets, expenses, methodName);
        Ok(earlier + mine)
      else Ok(earlier)
  }

  function AutoDepreciationResult(entries: seq<Entry>, config: Option<map<string, string>>, isValid: string -> bool)
    : (r: Result<Depreciation.PluginOutput>)
    ensures var settings := ReadSettings(config, isValid);
      var forecast := ForecastAll(entries, settings.assets, settings.expenses, settings.methodName);
      && (r.Err? <==> forecast.Err?)
      && (r.Err? ==> r.error == forecast.error)
      && (r.Ok? ==> && Sorted(r.value.entries)
                    && multiset(r.value.entries) == multiset(entries + AsEntries(forecast.value))
                    && r.value.errors == [])
  {
    var settings := ReadSettings(config, isValid);
    var forecasted :- ForecastAll(entries, settings.assets, settings.expenses, settings.methodName);
    Ok(Depreciation.PluginOutput(SortEntries(entries + AsEntries(forecasted)), []))
  }

  // ---------------------------------------------------------------------
  // Steps of the loops. The driver has the newer copy's shape, so these are
  // the arguments of `Depreciation.PrefixFailurePersists`, `SkipPosting`,
  // `PostingFails`, `AddPosting` and `AllPrefixFailurePersists` again, over
  // the older copy's `PostingForecast`.

  lemma {:induction false} PrefixFailurePersists(txn: Transaction, ps: seq<Posting>, n: nat, assets: string, expenses: string, methodName: string)
    requires n <= |ps|
    ensures ForecastPostings(txn, ps[..n], assets, expenses, methodName).Err? ==>
              ForecastPostings(txn, ps, assets, expenses, methodName)
              == ForecastPostings(txn, ps[..n], assets, expenses, methodName)
    decreases |ps|
  {
    if n < |ps| {
      var front := ps[..|ps| - 1];
      assert front[..n] == ps[..n];
      PrefixFailurePersists(txn, front, n, assets, expenses, methodName);
    } else {
      assert ps[..n] == ps;
    }
  }

  lemma SkipPosting(txn: Transaction, ps: seq<Posting>, i: nat, assets: string, expenses: string, methodName: string, entries: seq<Transaction>)
    requires i < |ps| && !IsPostingADepreciation(ps[i], assets)
    requires ForecastPostings(txn, ps[..i], assets, expenses, methodName) == Ok(entries)
    ensures ForecastPostings(txn, ps[..i + 1], assets, expenses, methodName) == Ok(entries)
  {
    assert ps[..i + 1][..i] == ps[..i];
  }

  lemma PostingFails(txn: Transaction, ps: seq<Posting>, i: nat, assets: string, expenses: string, methodName: string, entries: seq<Transaction>)
    requires i < |ps| && IsPostingADepreciation(ps[i], assets)
    requires ForecastPostings(txn, ps[..i], assets, expenses, methodName) == Ok(entries)
    requires PostingForecast(txn, ps[i], expenses, methodName).Err?
    ensures ForecastPostings(txn, ps, assets, expenses, methodName) == Err(PostingForecast(txn, ps[i], expenses, methodName).error)
  {
    assert ps[..i + 1][..i] == ps[..i];
    PrefixFailurePersists(txn, ps, i + 1, assets, expenses, methodName);
  }

  lemma AddPosting(txn: Transaction, ps: seq<Posting>, i: nat, assets: string, expenses: string, methodName: string,
                   entries: seq<Transaction>, s: Schedule)
    requires i < |ps| && IsPostingADepreciation(ps[i], assets)
    requires ForecastPostings(txn, ps[..i], assets, expenses, methodName) == Ok(entries)
    requires ps[i].cost.Some? && LegacyResidualValue(ps[i].meta).Ok? && LegacyParseUsefulLife(ps[i].meta).Ok?
    requires DepreciationSchedule(ps[i].cost.value.number, LegacyResidualValue(ps[i].meta).value, ps[i].cost.value.date,
                                  LegacyParseUsefulLife(ps[i].meta).value, methodName) == Ok(s)
    ensures s.Aligned() && |s.dates| > 0
    ensures ForecastPostings(txn, ps[..i + 1], assets, expenses, methodName)
         == Ok(entries + PeriodEntries(txn, ps[i], s, expenses))
  {
    assert ps[..i + 1][..i] == ps[..i];
  }

  lemma {:induction false} AllPrefixFailurePersists(es: seq<Entry>, n: nat, assets: string, expenses: string, methodName: string)
    requires n <= |es|
    ensures ForecastAll(es[..n], assets, expenses, methodName).Err? ==>
              ForecastAll(es, assets, expenses, methodName) == ForecastAll(es[..n], assets, expenses, methodName)
    decreases |es|
  {
    if n < |es| {
      var front := es[..|es| - 1];
      assert front[..n] == es[..n];
      AllPrefixFailurePersists(front, n, assets, expenses, methodName);
    } else {
      assert es[..n] == es;
    }
  }

  // ---------------------------------------------------------------------
  // auto_depreciation: three nested loops, one method per loop.

  /** The innermost loop: `latest_pos` is sold, bought back and charged,
      and the buy posting becomes `latest_pos`. */
  method EntriesOf(txn: Transaction, p: Posting, s: Schedule, expenses: string, currency: string)
    returns (entries: seq<Transaction>)
    requires p.cost.Some? && currency == p.cost.value.currency
    requires s.Aligned()
    ensures entries == PeriodEntries(txn, p, s, expenses)
  {
    entries := [];
    var latest := p;
    var lotLabel := p.cost.value.lotLabel;
    var i := 0;
    while i < |s.dates|
      invariant 0 <= i <= |s.dates|
      invariant latest == LotAt(p, s, i)
      invariant entries == PeriodEntries(txn, p, s, expenses)[..i]
    {
      var date := s.dates[i];
      var sell := PostingToSell(latest);
      var buy := PostingToBuy(latest, date, s.values[i]).value;
      var expense := PostingToExpense(latest, expenses, s.deltas[i], currency);
      PeriodStep(txn, p, s, expenses, i);
      latest := buy;
      entries := entries + [AutoEntry(txn, date, lotLabel, [sell, buy, expense])];
      i := i + 1;
    }
    assert PeriodEntries(txn, p, s, expenses)[..i] == PeriodEntries(txn, p, s, expenses);
  }

  /** The middle loop, over the postings of one transaction. */
  method ForecastTransaction(txn: Transaction, assets: string, expenses: string, methodName: string)
    returns (r: Result<seq<Transaction>>)
    ensures r == ForecastPostings(txn, txn.postings, assets, expenses, methodName)
  {
    var entries: seq<Transaction> := [];
    var i := 0;
    while i < |txn.postings|
      invariant 0 <= i <= |txn.postings|
      invariant ForecastPostings(txn, txn.postings[..i], assets, expenses, methodName) == Ok(entries)
    {
      var p := txn.postings[i];
      if IsPostingADepreciation(p, assets) {
        ghost var fails := PostingForecast(txn, p, expenses, methodName).Err?;
        if fails {
          PostingFails(txn, txn.postings, i, assets, expenses, methodName, entries);
        }
        if p.cost.None? {
          return Err(AttributeError);
        }
        var cost := p.cost.value;
        var currency := cost.currency;
        var endValue :- LegacyResidualValue(p.meta);
        var months :- LegacyParseUsefulLife(p.meta);
        var s :- DepreciationList(cost.number, endValue, cost.date, months, methodName);
        AddPosting(txn, txn.postings, i, assets, expenses, methodName, entries, s);
        var mine := EntriesOf(txn, p, s, expenses, currency);
        assert ForecastPostings(txn, txn.postings[..i + 1], assets, expenses, methodName) == Ok(entries + mine);
        entries := entries + mine;
      } else {
        SkipPosting(txn, txn.postings, i, assets, expenses, methodName, entries);
      }
      i := i + 1;
    }
    assert txn.postings[..i] == txn.postings;
    return Ok(entries);
  }

  /** The outer loop over the entries, then the sort. */
  method AutoDepreciation(entries: seq<Entry>, config: Option<map<string, string>>, isValid: string -> bool)
    returns (r: Result<Depreciation.PluginOutput>)
    ensures r == AutoDepreciationResult(entries, config, isValid)
  {
    var settings := ReadSettings(config, isValid);
    var assets, expenses, methodName := settings.assets, settings.expenses, settings.methodName;
    var depreciationEntries: seq<Transaction> := [];
    var i := 0;
    while i < |entries|
      invariant 0 <= i <= |entries|
      invariant ForecastAll(entries[..i], assets, expenses, methodName) == Ok(depreciationEntries)
    {
      var entry := entries[i];
      assert entries[..i + 1][..i] == entries[..i];
      if entry.Txn? {
        AllPrefixFailurePersists(entries, i + 1, assets, expenses, methodName);
        var mine :- ForecastTransaction(entry.txn, assets, expenses, methodName);
        depreciationEntries := depreciationEntries + mine;
      }
      i := i + 1;
    }
    assert entries[..i] == entries;
    return Ok(Depreciation.PluginOutput(SortEntries(entries + AsEntries(depreciationEntries)), []));
  }
}
