# auto-depreciation, modelled in Dafny

`auto_depreciation` is a beancount plugin that forecasts how a fixed asset
depreciates. A purchase posting on the configured assets account carries two
metadata entries:

- `useful_life`, such as `3m` or `5y`;
- an optional `residual_value`.

For every month of the useful life the plugin adds one transaction of three
postings:

- it sells the lot at its previous cost;
- it buys the lot back at the present value, dated at the month's checkpoint;
- it books the difference on the expenses account.

The present value follows one of two curves, `parabola` or `linear`, from the
purchase cost on day 0 to the residual value on the last checkpoint. The
plugin returns the input entries and the forecast ones, sorted, with an empty
error list.

The repository holds two copies of the algorithm, and both are modelled:

- **Newer copy: `auto_depreciation/depreciation.py`.** It has one function per
  step and rounds present values to cents. It is modelled in module
  `Depreciation`.
- **Older copy: `auto_depreciation.py`.** Configuration, parsing and the
  driver are written inline, present values are rounded to whole units, and
  the metadata is stripped with a `try`/`del` that stops at the first missing
  key. It is modelled in module `Legacy`.

The shared parts are these modules:

- `Calendar`: Python dates, ordinals and `relativedelta` month addition with
  the day clamped to the end of the month.
- `Rounding`: `round`, which rounds half to even, and rounding to a quantum.
- `Ledger`: postings, transactions, weights and the canonical entry order.
- `Curves`: the two curves and the method registry.
- `Directive`: the `useful_life` parser, the residual value and metadata
  stripping.
- `Config`: the settings and the detection of depreciable postings.
- `Schedule`: checkpoints, rounded values and deltas. It is parameterised by
  the quantum, `100` for cents and `1` for whole units.

How each kind of source code is modelled:

- **Exceptions** are `Result` values. An `Err` names the Python exception:
  `KeyError`, `TypeError`, `AttributeError`, `IndexError`, `ValueError`,
  `ZeroDivisionError`, or `DateOutOfRange` for a year past 9999.
- **Numbers** are exact `real`s.
- **Records** are immutable datatypes, and `_replace` is a datatype update.
- **Loops** that accumulate lists or thread `latest_posting` are methods with
  `while` loops. Each is proved equal to a specification function. Properties
  are proved about those functions.

How the two copies relate:

- **Agreement.** For every posting the plugin depreciates, the older copy's
  helpers build exactly the newer copy's postings and entries
  (`Legacy.PeriodEntriesAgree`, `Legacy.ForecastIsChain`). So the chaining,
  balance and stripping results proved for the newer copy hold for the older
  one on its whole-unit schedule. Balance holds for acquisitions without a
  price annotation (see "## Findings").
- **Where they differ:**
  - the quantum;
  - the residual value, which the older copy does not round before use;
  - the order in which errors surface;
  - a useful life of zero months. The newer copy returns no entries. The
    older copy fails with `IndexError` at `days_list[-1]`.

## Model

| member | source | states |
|---|---|---|
| Calendar.DaysInMonth | auto_depreciation/depreciation.py:275-278 | a month has 28 to 31 days; February has 29 exactly in leap years |
| Calendar.DaysBeforeMonthTable | auto_depreciation/depreciation.py:279 | the days before a month follow the cumulative table 0, 31, 59, …, 334, plus one after February in a leap year |
| Calendar.DaysBeforeYearClosedForm | auto_depreciation/depreciation.py:279 | the days before year y are 365n + n/4 − n/100 + n/400 for n = y − 1, the formula `toordinal` uses |
| Calendar.ShiftMonths | auto_depreciation/depreciation.py:275-278 | `date + relativedelta(months=k)` is a well-formed date exactly k months later; its day is the original day, or the last day of the target month when that is shorter |
| Calendar.AddMonths | auto_depreciation/depreciation.py:275-278 | the addition succeeds exactly when the shifted year is at most 9999, and otherwise fails out of range |
| Calendar.NextMonthLater | auto_depreciation/depreciation.py:275-279 | any day of one month comes before every day of the next month |
| Calendar.ShiftMonthsStep | auto_depreciation/depreciation.py:275-279 | adding one more month always gives a strictly later date |
| Calendar.ShiftMonthsIncreasing | auto_depreciation/depreciation.py:275-279 | month addition strictly increases with the number of months |
| Calendar.ShiftMonthsAfter | auto_depreciation/depreciation.py:279 | every checkpoint is strictly after the purchase date, so every day offset is positive |
| Calendar.ShiftMonthsYearMonotone | auto_depreciation/depreciation.py:275-278 | more months never give an earlier year, so the latest checkpoint is the first to leave the year range |
| Calendar.EndOfMonthExample | tests/test_depreciation.py:60-89 | from 2020-03-31 the checkpoints are 04-30, 05-31 and 06-30, which are 30, 61 and 91 days later |
| Rounding.RoundHalfEven | auto_depreciation.py:172 | `round` gives an integer within one half of x, and the even one on a tie |
| Rounding.RoundInteger | auto_depreciation.py:172 | `round` leaves integers unchanged |
| Rounding.RoundMonotone | auto_depreciation.py:172 | `round` preserves order |
| Rounding.Quantize | auto_depreciation/depreciation.py:284-287 | `round(x * scale) / scale` is on the grid 1/scale and within half a quantum of x; a tie goes to the even multiple of the quantum |
| Rounding.QuantizeOnGrid | auto_depreciation/depreciation.py:148 | a value already on the grid is left unchanged |
| Rounding.QuantizeIdempotent | auto_depreciation/depreciation.py:148 | rounding twice is rounding once |
| Rounding.QuantizeMonotone | auto_depreciation/depreciation.py:284-287 | rounding to the quantum preserves order |
| Rounding.QuantizeUnit | auto_depreciation.py:196 | at quantum 1 the rule is `round` itself |
| Rounding.QuantizeExamples | tests/test_depreciation.py:31 | 200.004 rounds to 200.00 in cents; 200.05 rounds to 200 in whole units; halves go to the even neighbour |
| Ledger.AsEntries | auto_depreciation/depreciation.py:189 | the forecast transactions become entries one for one, in order |
| Ledger.InsertMultiset | auto_depreciation/depreciation.py:190 | inserting adds exactly one element |
| Ledger.KeyLeTransitive | auto_depreciation/depreciation.py:190 | the entry order is transitive |
| Ledger.InsertElements | auto_depreciation/depreciation.py:190 | insertion introduces no element other than the inserted one |
| Ledger.InsertSorted | auto_depreciation/depreciation.py:190 | inserting into a sorted list keeps it sorted |
| Ledger.SortEntries | auto_depreciation/depreciation.py:190 | `sort(key=entry_sortkey)` returns a sorted permutation of its input |
| Ledger.KeyedApart | auto_depreciation/depreciation.py:190 | two entries whose keys are out of order do not share a key |
| Ledger.InsertWithKey | auto_depreciation/depreciation.py:190 | the inserted entry comes first among the entries that share its key, the rest keep their order |
| Ledger.SortEntriesStable | auto_depreciation/depreciation.py:190 | the sort is stable: entries with equal keys keep their input order |
| Ledger.SortedDates | auto_depreciation/depreciation.py:190 | in the sorted output, dates never decrease |
| Config.ReadAssetsAccountFromConfig | auto_depreciation/depreciation.py:44-52 | the configured `assets` account when present and valid, else `Assets:Wealth:Fixed-Assets` |
| Config.ReadExpensesAccountFromConfig | auto_depreciation/depreciation.py:77-85 | the configured `expenses` account when present and valid, else `Expenses:Property-Expenses:Depreciation` |
| Config.ReadDepreciationMethodFromConfig | auto_depreciation/depreciation.py:107-112 | the configured `method`, unvalidated, else `parabola` |
| Config.IsPostingADepreciation | auto_depreciation/depreciation.py:154-155 | a posting qualifies exactly when its metadata has `useful_life` and its account is the assets account |
| Config.InvalidAssetsAccountFallsBack | auto_depreciation/depreciation.py:50-51 | with an invalid configured assets account, postings on the default account are still depreciated |
| Curves.LookupMethod | auto_depreciation/depreciation.py:270-274 | exactly `parabola` and `linear` are known; any other name is a KeyError naming it |
| Curves.PresentValueByParabola | auto_depreciation/depreciation.py:320-323 | equals the start value on day 0 and the end value on the last day; a span of 0 days is a division by zero |
| Curves.PresentValueByLinear | auto_depreciation/depreciation.py:348-350 | equals the start value on day 0 and the end value on the last day; a span of 0 days is a division by zero |
| Curves.ParabolaVertexForm | auto_depreciation/depreciation.py:320-323 | the parabola is the residual value plus the depreciable amount times the squared fraction of the life still to run, so its slope is zero on the last day |
| Curves.ParabolaDecliningLoss | auto_depreciation/depreciation.py:320-323 | for an asset that loses value, the parabola loses no more on a day than on the day before: depreciation slows down |
| Curves.LinearRate | auto_depreciation/depreciation.py:348-350 | the line moves from the start value to the end value in proportion to the days elapsed |
| Curves.LinearConstantLoss | auto_depreciation/depreciation.py:348-350 | the line loses the same amount every day, the depreciable amount over the number of days |
| Curves.ParabolaDifference | auto_depreciation/depreciation.py:320-323 | the difference of two values of a x² − 2ad x factors as a (y − x)(2d − x − y) |
| Curves.ParabolaCoefficients | auto_depreciation/depreciation.py:320-321 | for a depreciating asset a ≥ 0, and b is −2a times the span |
| Curves.ParabolaOrder | auto_depreciation/depreciation.py:320-323 | the parabola with its vertex at the span does not rise before the vertex |
| Curves.ParabolaValuesOrder | auto_depreciation/depreciation.py:320-323 | ordering of two parabola values, stated on the coefficients |
| Curves.ParabolaNonIncreasing | auto_depreciation/depreciation.py:320-323 | when start ≥ end, the parabola never rises on the days of the useful life |
| Curves.LinearNonIncreasing | auto_depreciation/depreciation.py:348-350 | when start ≥ end, the line never rises on the days of the useful life |
| Curves.CurveBetweenEndpoints | auto_depreciation/depreciation.py:320-323 | either curve stays between the residual value and the original value during the useful life |
| Curves.CurveNonIncreasing | auto_depreciation/depreciation.py:348-350 | either curve is non-increasing on the useful life |
| Curves.CurveFlat | auto_depreciation/depreciation.py:348-350 | a residual value equal to the start value gives a constant curve |
| Directive.Lower | auto_depreciation/depreciation.py:128 | `str.lower` maps each character, keeping the length |
| Directive.LeadingDigits | auto_depreciation/depreciation.py:128 | the greedy `\d+` is the longest all-digit prefix |
| Directive.Digits | auto_depreciation/depreciation.py:130 | every natural number has a non-empty decimal spelling |
| Directive.LeadingDigitsUnique | auto_depreciation/depreciation.py:128 | a digit run that stops at a non-digit is the greedy run |
| Directive.LowerConcat | auto_depreciation/depreciation.py:128 | lower-casing distributes over concatenation |
| Directive.LowerDigits | auto_depreciation/depreciation.py:128 | digits are unchanged by lower-casing |
| Directive.MatchUsefulLifeExactly | auto_depreciation/depreciation.py:128-131 | the pattern matches exactly the texts that begin with digits followed by `m`, `M`, `y` or `Y` |
| Directive.DigitsValueOfDigits | auto_depreciation/depreciation.py:130 | `int` of a number's spelling is the number |
| Directive.MatchUsefulLifeRoundTrip | auto_depreciation/depreciation.py:128-131 | `<n>m` reads back as n months and `<n>y` as 12·n, in either case, whatever follows |
| Directive.MatchUsefulLifeIgnoresSuffix | auto_depreciation/depreciation.py:128 | text after a matched prefix does not change the result |
| Directive.StripDirective | auto_depreciation/depreciation.py:366-371 | the metadata loses `useful_life` and `residual_value` and keeps every other key and value |
| Directive.LegacyStripDirective | auto_depreciation.py:209-214 | both keys are removed when `useful_life` is present; otherwise nothing is removed |
| Directive.LegacyStripDiffers | auto_depreciation.py:210-214 | the two strip rules differ exactly when `residual_value` is present without `useful_life` |
| Directive.StripIdempotent | auto_depreciation/depreciation.py:366-371 | stripping a stripped posting's metadata changes nothing, under either rule |
| Directive.ParseUsefulLifeInMonths | auto_depreciation/depreciation.py:128-131 | a missing key is a KeyError; a non-string or non-matching value is a TypeError; a match gives n or 12·n months |
| Directive.LegacyParseUsefulLife | auto_depreciation.py:81-86 | the same months when it succeeds; a non-matching string is an AttributeError from `m.group` |
| Directive.ParseResidualValue | auto_depreciation/depreciation.py:147-148 | 0 when absent; a number is rounded to cents with ties to even, the quantum rule at scale 100; a string is a TypeError |
| Directive.LegacyResidualValue | auto_depreciation.py:75-78 | 0.0 when absent; a number is used unrounded; a string is a ValueError |
| Schedule.CheckpointDates | auto_depreciation/depreciation.py:275-278 | exactly `months` dates, date k being the purchase date plus k months; it fails exactly when the last one is past year 9999 |
| Schedule.DayOffsets | auto_depreciation/depreciation.py:279 | one day offset per checkpoint |
| Schedule.PointValue | auto_depreciation/depreciation.py:280-287 | the curve value rounded to the quantum; it fails, with a division by zero, only for a zero span |
| Schedule.PresentValues | auto_depreciation/depreciation.py:280-287 | one rounded value per offset, in order; it fails exactly when there are offsets and the span is 0 |
| Schedule.Deltas | auto_depreciation/depreciation.py:290-294 | one depreciation value per present value |
| Schedule.Scaled | auto_depreciation/depreciation.py:422-423 | each period's expense is the units times that period's depreciation |
| Schedule.SumScaled | auto_depreciation/depreciation.py:422-423 | the expenses add up to the units times the total depreciation |
| Schedule.ScheduleFromDates | auto_depreciation/depreciation.py:279-295 | three aligned lists on the given dates; the span is the last date's day offset and value i is the curve at date i's offset over that span, rounded; the deltas are previous value minus present value; it fails, with a division by zero, exactly when the last offset is 0 |
| Schedule.CheckpointsIncrease | auto_depreciation/depreciation.py:275-279 | checkpoint dates and their day offsets strictly increase, and every offset is positive |
| Schedule.OffsetsInSpan | auto_depreciation/depreciation.py:279-284 | every offset lies in (0, span], where the span is the last offset |
| Schedule.ScheduleFromCheckpoints | auto_depreciation/depreciation.py:279-287 | on checkpoint dates the values never fail, because the span is positive |
| Schedule.LastValueIsResidual | auto_depreciation/depreciation.py:280-287 | the last present value is the residual value rounded to the quantum |
| Schedule.DeltasPrefix | auto_depreciation/depreciation.py:290-294 | the deltas of a prefix are the prefix of the deltas |
| Schedule.DeltasStep | auto_depreciation/depreciation.py:290-294 | one more iteration appends previous value minus present value |
| Schedule.DeltasTelescope | auto_depreciation/depreciation.py:290-294 | the deltas sum exactly to the start value minus the last present value |
| Schedule.ScheduleMonotone | auto_depreciation/depreciation.py:280-294 | when start ≥ residual, the values never rise and stay between the rounded residual and the rounded start; every delta after the first is non-negative, and so is the first when the start is on the grid |
| Schedule.FlatSchedule | auto_depreciation/depreciation.py:280-294 | a residual value equal to an on-grid cost gives constant values and zero depreciation |
| Schedule.DepreciationCharged | auto_depreciation/depreciation.py:290-294 | u units are charged u times the start value minus the last present value in total |
| Schedule.ExampleOffsets | tests/test_depreciation.py:60-89 | the example's offsets are 30, 61 and 91 days |
| Schedule.ExampleCurve | tests/test_depreciation.py:60-89 | the parabola from 600 to 200 over 91 days at those offsets |
| Schedule.ExampleSchedule | tests/test_depreciation.py:60-89 | the example schedule from its rounded values |
| Schedule.ParabolaExampleCents | tests/test_depreciation.py:60-89 | to cents: 379.74, 243.47, 200 with depreciation 220.26, 136.27, 43.47 |
| Schedule.ParabolaExampleUnits | auto_depreciation_test.py:53-66 | to whole units: 380, 243, 200 with depreciation 220, 137, 43 |
| Depreciation.ForecastedDepreciationInfo | auto_depreciation/depreciation.py:270-295 | the exact success condition; an unknown method is a KeyError; otherwise 0 months give an empty schedule, a missing cost is an AttributeError, then a checkpoint past year 9999 is out of range, then a string residual value is a TypeError; success gives `months` aligned points on the checkpoints, value i being the curve at checkpoint i's day offset over the span to the last checkpoint, rounded to cents, with deltas previous minus present |
| Depreciation.InfoSchedule | auto_depreciation/depreciation.py:270-295 | the checkpoints are the purchase date plus 1..months calendar months; value i is the curve at checkpoint i's day offset over the span to the last checkpoint, rounded to cents; deltas are previous minus present; the last value is the cent-rounded residual; the deltas sum to cost minus residual |
| Depreciation.CalForecastedDepreciationInfo | auto_depreciation/depreciation.py:270-295 | the comprehensions and the loop compute exactly that schedule or error |
| Depreciation.DepreciationValues | auto_depreciation/depreciation.py:290-294 | the loop appends previous value minus present value for every value |
| Depreciation.CreateForecastedSellPosting | auto_depreciation/depreciation.py:366-372 | units and weight are negated; metadata is stripped; nothing else changes |
| Depreciation.CreateForecastedBuyPosting | auto_depreciation/depreciation.py:394-400 | only the cost date and number are replaced, and metadata is stripped; the weight is units times the present value; a missing cost is an AttributeError |
| Depreciation.CreateDepreciationExpensePosting | auto_depreciation/depreciation.py:422-429 | the expenses account gets units times the delta in the cost currency, not held at cost; metadata is stripped; nothing else changes, so a price annotation stays and weighs the expense at units times price |
| Depreciation.DepreciationNarration | auto_depreciation/depreciation.py:454-461 | the narration with a dash when non-empty, then `auto_depreciation`, then a colon and the label when there is one |
| Depreciation.CreateDepreciationEntry | auto_depreciation/depreciation.py:454-462 | only date, narration and postings of the source entry change |
| Depreciation.LotAt | auto_depreciation/depreciation.py:227-237 | the lot after i periods keeps account, units, currency and label; after the first period its cost is the last checkpoint's date and value, with stripped metadata |
| Depreciation.PeriodEntry | auto_depreciation/depreciation.py:227-243 | each period's entry has three postings and the checkpoint's date |
| Depreciation.PeriodEntries | auto_depreciation/depreciation.py:227-243 | one entry per checkpoint, in order |
| Depreciation.PeriodStep | auto_depreciation/depreciation.py:227-243 | the buy posting of period j is the lot of period j + 1, and period j appends exactly its entry |
| Depreciation.ForecastedEntries | auto_depreciation/depreciation.py:218-219 | a non-transaction is a TypeError |
| Depreciation.PrefixFailurePersists | auto_depreciation/depreciation.py:221-243 | the first failing posting's error is the transaction's error |
| Depreciation.SkipPosting | auto_depreciation/depreciation.py:221-222 | a posting that is not depreciated adds nothing |
| Depreciation.PostingFails | auto_depreciation/depreciation.py:222-226 | a depreciated posting that cannot be forecast ends the forecast with its error |
| Depreciation.AddPosting | auto_depreciation/depreciation.py:221-243 | a depreciated posting adds its forecast entries |
| Depreciation.DepreciationEntriesOf | auto_depreciation/depreciation.py:227-243 | the inner loop threading `latest_posting` builds exactly the period entries |
| Depreciation.ForecastPosting | auto_depreciation/depreciation.py:222-243 | the loop body for one depreciable posting yields exactly its forecast: useful life, then schedule, then the period entries |
| Depreciation.ForecastStep | auto_depreciation/depreciation.py:221-243 | one pass over posting i extends the forecast of the postings before it, or returns the error that is the whole transaction's result |
| Depreciation.CreateForecastedDepreciationEntries | auto_depreciation/depreciation.py:218-244 | the nested loop computes exactly the forecast, or the first error |
| Depreciation.AutoDepreciationResult | auto_depreciation/depreciation.py:180-192 | on success the output is sorted, is a permutation of the input plus the forecast entries, and has no errors; otherwise it is the forecast's error |
| Depreciation.AllPrefixFailurePersists | auto_depreciation/depreciation.py:186-189 | the first failing transaction's error is the plugin's error |
| Depreciation.AutoDepreciation | auto_depreciation/depreciation.py:180-192 | the loop over the entries followed by the sort computes exactly that result |
| Depreciation.ChainedLots | auto_depreciation/depreciation.py:235-237 | the sell posting of period i + 1 sells the lot bought in period i |
| Depreciation.LotCost | auto_depreciation/depreciation.py:227-237 | the lot sold in period i is held at the previous value: the cost first, then the last rounded value |
| Depreciation.PeriodEntryBalanced | auto_depreciation/depreciation.py:227-243 | every entry generated for an acquisition without a price annotation balances exactly: one currency, with weights summing to zero |
| Depreciation.PricedEntryUnbalanced | auto_depreciation/depreciation.py:429 | an acquisition written `1 LENS {600.00 CNY} @ 600.00 CNY` gets a first entry that does not balance, although its delta is the previous value minus the present value |
| Depreciation.CorrectedExpensePosting | auto_depreciation/depreciation.py:422-429 | the expense posting with the price annotation dropped is weighed at units times delta in the cost currency; without a price it is the generated posting |
| Depreciation.CorrectedPeriodEntry | auto_depreciation/depreciation.py:227-243 | the corrected entry differs from the generated one only in the expense posting's price |
| Depreciation.CorrectedPeriodEntryBalanced | auto_depreciation/depreciation.py:227-243 | every corrected entry balances, with or without a price annotation |
| Depreciation.PostingForecastBalanced | auto_depreciation/depreciation.py:222-243 | every entry one depreciable posting without a price annotation generates balances |
| Depreciation.PostingsForecastBalanced | auto_depreciation/depreciation.py:220-243 | every entry a transaction's forecast generates balances when its depreciable postings carry no price |
| Depreciation.ForecastAllBalanced | auto_depreciation/depreciation.py:180-192 | every entry a successful run adds balances when no depreciable posting of the ledger carries a price |
| Depreciation.PeriodEntryStripped | auto_depreciation/depreciation.py:366-371 | no generated posting carries either directive key |
| Depreciation.NothingToForecast | auto_depreciation/depreciation.py:221-222 | postings without `useful_life` forecast nothing |
| Depreciation.GeneratedEntryNotForecast | auto_depreciation/depreciation.py:154-155 | under any configuration, a generated entry forecasts nothing |
| Depreciation.BookedOnSum | auto_depreciation/depreciation.py:186-191 | amounts booked on an account add up entry by entry |
| Depreciation.PeriodExpense | auto_depreciation/depreciation.py:422-429 | each generated entry books units times the period's depreciation on the expenses account |
| Depreciation.AmountOnOfThree | auto_depreciation/depreciation.py:243 | only the expense posting books on the expenses account |
| Depreciation.ExpenseAmounts | auto_depreciation/depreciation.py:422-429 | entry i books units times delta i on the expenses account |
| Depreciation.TotalDepreciation | auto_depreciation/depreciation.py:227-243 | over the useful life the expenses account is charged the sum of units times delta; with `Schedule.DepreciationCharged`, units times cost minus last value |
| Legacy.ReadSettings | auto_depreciation.py:40-64 | the inline configuration gives the same three settings, with the same defaults, as the newer readers |
| Legacy.DepreciationSchedule | auto_depreciation.py:129-147 | an unknown method is a KeyError; zero months is an IndexError; a year past 9999 fails; success gives `months` checkpoints, value i being the curve at checkpoint i's day offset over the span to the last checkpoint, rounded to a whole unit, deltas as previous minus present, and a last value of round(residual) |
| Legacy.DepreciationList | auto_depreciation.py:129-147 | the comprehensions and the delta loop compute exactly that schedule or error |
| Legacy.PostingToSell | auto_depreciation.py:207-215 | units negated and metadata stripped by the legacy rule; when the strip rules agree, this is the newer sell posting |
| Legacy.PostingToBuy | auto_depreciation.py:230-238 | only the cost date and number are replaced; when the strip rules agree, this is the newer buy posting |
| Legacy.PostingToExpense | auto_depreciation.py:255-262 | units times the value in the passed currency on the expenses account, with no cost and any price annotation kept; with the cost currency, this is the newer expense posting |
| Legacy.AutoEntry | auto_depreciation.py:279-290 | the same narration and entry as the newer copy |
| Legacy.LotAt | auto_depreciation.py:89-97 | `latest_pos` after i periods; for a posting with `useful_life` it equals the newer lot |
| Legacy.PeriodEntry | auto_depreciation.py:89-100 | for a posting with `useful_life` it equals the newer period entry |
| Legacy.PeriodEntries | auto_depreciation.py:89-100 | one entry per checkpoint, in order |
| Legacy.PeriodEntriesAgree | auto_depreciation.py:89-100 | for a posting with `useful_life`, the older copy generates the newer copy's entries |
| Legacy.PeriodStep | auto_depreciation.py:89-100 | the buy posting of period j is the lot of period j + 1, and period j appends exactly its entry |
| Legacy.PostingForecast | auto_depreciation.py:72-100 | errors in source order: missing cost, then a string residual, then the useful life, then `depreciation_list`'s own errors (unknown method, zero months, a year past 9999); it succeeds exactly when those three reads and `depreciation_list` succeed, with one entry per month |
| Legacy.ForecastIsChain | auto_depreciation.py:89-100 | a successful forecast is the newer chain on the whole-unit schedule, whose deltas are previous minus present |
| Legacy.ForecastBalanced | auto_depreciation.py:89-100 | every entry the older copy generates for an acquisition without a price annotation balances exactly |
| Legacy.AutoDepreciationResult | auto_depreciation.py:66-103 | on success the output is sorted, is a permutation of the input plus the forecast entries, and has no errors; otherwise it is the forecast's error |
| Legacy.PrefixFailurePersists | auto_depreciation.py:69-100 | the first failing posting's error is the transaction's error |
| Legacy.SkipPosting | auto_depreciation.py:70-71 | a posting that is not depreciated adds nothing |
| Legacy.PostingFails | auto_depreciation.py:72-88 | a failing depreciated posting ends the run with its error |
| Legacy.AddPosting | auto_depreciation.py:87-100 | a depreciated posting adds its period entries |
| Legacy.AllPrefixFailurePersists | auto_depreciation.py:67-68 | the first failing transaction's error is the plugin's error |
| Legacy.EntriesOf | auto_depreciation.py:89-100 | the innermost loop threading `latest_pos` builds exactly the period entries |
| Legacy.ForecastTransaction | auto_depreciation.py:69-100 | the loop over one transaction's postings computes exactly its forecast, or the first error |
| Legacy.AutoDepreciation | auto_depreciation.py:66-103 | the three nested loops followed by the sort compute exactly the plugin's result |

## Left out

- **Configuration evaluation.** `eval` of the configuration string is not modelled. The configuration arrives as an optional map from key to string, and no configuration behaves like an empty map.
- **Account validity.** `account.is_valid` is the parameter `isValid`. The unused `options_map` is dropped.
- **Entry order.** `data.entry_sortkey` is modelled as the key (date ordinal, type rank, line number). A transaction has rank 0. Every other directive is represented only by its key.
- **Loader and printer.** The `loader`/`printer` calls and the `__main__` blocks are not modelled: they are I/O.
- **Floats and Decimal contexts.** Amounts are exact rationals, so binary floats and 28-digit Decimal contexts are not modelled. This covers:
  - `float(cost.number)` and `float(residual)` in the older copy;
  - `float(value) * 100` before rounding in the newer copy.
- Depreciation.PeriodEntryBalanced: proved only for an acquisition without a price annotation. The expense posting keeps the lot's price, so a priced acquisition's entries do not balance (see "## Findings").
- Legacy.ForecastBalanced: proved only for an acquisition without a price annotation, because `_posting_to_expense` keeps the price as well. It also relies on exact arithmetic; the real code's floats may leave a small imbalance.
- Curves.PresentValueByParabola: a span of 0 days is reported as `ZeroDivisionError`. When the start and end values are equal Decimals, the newer copy raises `InvalidOperation` for 0/0 instead. The plugin never reaches a zero span, because every checkpoint is at least 28 days after the purchase (`Schedule.ScheduleFromCheckpoints`).
- Curves.PresentValueByLinear: the same zero-span labelling as the parabola.
- **Characters.** `str.lower` is modelled on ASCII letters only. The newer copy's `\d` is modelled as ASCII digits, although Python also accepts other Unicode decimal digits there.
- Directive.LegacyResidualValue: every string is a ValueError. Python's `float()` would accept a numeric string such as `"200"`.
- **Metadata values.** Only strings and numbers are modelled. A posting whose metadata is `None` is modelled as one with empty metadata.
- **Unused or unimplemented behaviour.**
  - The unused `AutoDepreciationError` record is not modelled.
  - The `Auto Depreciation:` narration that the older test expects is not produced by any code shown, so it is not modelled.
- **Exceptions.** The plugin raises an exception rather than returning one. A failure is therefore the whole result, and no partial output is modelled.
- **Extracted loops.** Each copy's inner loops are separate methods:
  - `ForecastStep`, `ForecastPosting` and `DepreciationEntriesOf` in the newer copy;
  - `EntriesOf` and `ForecastTransaction` in the older copy.
  The code itself writes them inline. The computation and the evaluation order are unchanged.
- **Total depreciation split in two.** The entry-level total is `Depreciation.TotalDepreciation`, a sum of units times delta. The telescoped form, units times (cost − last value), is `Schedule.DepreciationCharged`; the two are not combined into one lemma.
- **Rounding rule.** The rounding rule is `round`, which rounds half to even, as the code does. No half-up variant is modelled.
- **Whole-unit copy.** The older copy is modelled as the code stands, although it is an older version of the same algorithm.

## Findings

| source | as written | input that shows it | evidently intended | confidence | as-written member | corrected member |
|---|---|---|---|---|---|---|
| auto_depreciation/depreciation.py:429 | the expense posting is the lot with account, units, cost and meta replaced, so the lot's price annotation stays on it | an acquisition `1 LENS {600.00 CNY} @ 600.00 CNY`: its first entry books `220.26 CNY @ 600.00 CNY`, which weighs 132156 CNY, against a sale of 600.00 CNY and a purchase of 379.74 CNY | the expense posting carries no price, so every generated entry balances | medium; not executed | Depreciation.PricedEntryUnbalanced | Depreciation.CorrectedPeriodEntryBalanced |

The model of the plugin keeps the expense posting as written. The corrected
posting and entry (`Depreciation.CorrectedExpensePosting`,
`Depreciation.CorrectedPeriodEntry`) sit beside it and equal it whenever the
acquisition has no price annotation. The older copy's `_posting_to_expense`
(auto_depreciation.py:262) keeps the price in the same way.
