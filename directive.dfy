/** The depreciation directive on an acquisition posting: the `useful_life`
    string (`<n>m` or `<n>y`, case-insensitive, matched as a prefix), the
    optional `residual_value`, and the removal of both keys from the
    metadata of every posting derived from it. */
module Directive {
  import opened Results
  import opened Rounding
  import opened Ledger

  const UsefulLifeKey := "useful_life"
  const ResidualValueKey := "residual_value"

  predicate IsDigit(c: char) {
    '0' <= c <= '9'
  }

  predicate AllDigits(s: string) {
    forall i :: 0 <= i < |s| ==> IsDigit(s[i])
  }

  /** `str.lower` on the characters that matter here (ASCII letters). */
  function LowerChar(c: char): char {
    if 'A' <= c <= 'Z' then (c as int + 32) as char else c
  }

  function Lower(s: string): (r: string)
    ensures |r| == |s|
    ensures forall i :: 0 <= i < |s| ==> r[i] == LowerChar(s[i])
  {
    seq(|s|, i requires 0 <= i < |s| => LowerChar(s[i]))
  }

  /** A unit letter of the pattern, in either case. */
  predicate IsUnit(c: char) {
    LowerChar(c) == 'm' || LowerChar(c) == 'y'
  }

  /** Length of the longest run of digits at the front of s (greedy `\d+`). */
  function LeadingDigits(s: string): (n: nat)
    ensures n <= |s|
    ensures AllDigits(s[..n])
    ensures n < |s| ==> !IsDigit(s[n])
  {
    if s == [] || !IsDigit(s[0]) then 0
    else
      var n := 1 + LeadingDigits(s[1..]);
      assert forall i :: 1 <= i < n ==> s[..n][i] == s[1..][..n - 1][i - 1];
      n
  }

  function DigitValue(c: char): nat
    requires IsDigit(c)
  {
    c as int - '0' as int
  }

  /** `int(digits)`: the decimal value, leading zeros allowed. */
  function DigitsValue(s: string): nat
    requires AllDigits(s)
    decreases |s|
  {
    if s == [] then 0
    else DigitsValue(s[..|s| - 1]) * 10 + DigitValue(s[|s| - 1])
  }

  /** The shortest decimal spelling of v. */
  function Digits(v: nat): (s: string)
    ensures |s| > 0 && AllDigits(s)
  {
    var last := ('0' as int + v % 10) as char;
    if v < 10 then [last] else Digits(v / 10) + [last]
  }

  /** `re.match(r'(\d+)([my])', str.lower(text))`, then `int(group 1)`,
      times 12 when group 2 is 'y'. Text after the unit letter is ignored. */
  function MatchUsefulLife(text: string): (r: Option<nat>)
  {
    var s := Lower(text);
    var n := LeadingDigits(s);
    if 0 < n < |s| && (s[n] == 'm' || s[n] == 'y') then
      var v := DigitsValue(s[..n]);
      Some(if s[n] == 'y' then 12 * v else v)
    else None
  }

  /** The text begins with one or more digits followed by a unit letter. */
  predicate StartsWithUsefulLife(text: string) {
    exists n :: 0 < n < |text| && AllDigits(text[..n]) && IsUnit(text[n])
  }

  /** The greedy run is the only digit run that stops at a non-digit. */
  lemma LeadingDigitsUnique(s: string, k: nat)
    requires k <= |s|
    requires forall i :: 0 <= i < k ==> IsDigit(s[i])
    requires k < |s| ==> !IsDigit(s[k])
    ensures LeadingDigits(s) == k
  {
    var n := LeadingDigits(s);
    assert forall i :: 0 <= i < n ==> IsDigit(s[i]) by {
      forall i | 0 <= i < n ensures IsDigit(s[i]) {
        assert s[..n][i] == s[i];
      }
    }
  }

  lemma LowerConcat(a: string, b: string)
    ensures Lower(a + b) == Lower(a) + Lower(b)
  {
  }

  lemma LowerDigits(d: string)
    requires AllDigits(d)
    ensures Lower(d) == d
  {
  }

  /** The pattern matches exactly the texts that begin `<digits><m|y>`. */
  lemma {:induction false} MatchUsefulLifeExactly(text: string)
    ensures MatchUsefulLife(text).Some? <==> StartsWithUsefulLife(text)
  {
    var s := Lower(text);
    var n := LeadingDigits(s);
    assert forall i :: 0 <= i < |text| ==> (IsDigit(text[i]) <==> IsDigit(s[i]));
    if MatchUsefulLife(text).Some? {
      assert AllDigits(text[..n]) by {
        forall i | 0 <= i < n ensures IsDigit(text[..n][i]) {
          assert s[..n][i] == s[i];
        }
      }
      assert IsUnit(text[n]);
    }
    if StartsWithUsefulLife(text) {
      var k :| 0 < k < |text| && AllDigits(text[..k]) && IsUnit(text[k]);
      forall i | 0 <= i < k ensures IsDigit(s[i]) {
        assert text[..k][i] == text[i];
      }
      LeadingDigitsUnique(s, k);
    }
  }

  lemma {:induction false} DigitsValueOfDigits(v: nat)
    ensures DigitsValue(Digits(v)) == v
  {
    if v >= 10 {
      DigitsValueOfDigits(v / 10);
      var s := Digits(v);
      assert s[..|s| - 1] == Digits(v / 10);
    }
  }

  /** Round trip: spelling n with a unit letter (in either case), followed by
      any text, reads back as n months, or as 12 * n months for years. */
  lemma {:induction false} MatchUsefulLifeRoundTrip(v: nat, unit: char, rest: string)
    requires unit in "mMyY"
    ensures MatchUsefulLife(Digits(v) + [unit] + rest)
         == Some(if LowerChar(unit) == 'y' then 12 * v else v)
  {
    var d := Digits(v);
    var u := LowerChar(unit);
    LowerConcat(d + [unit], rest);
    LowerConcat(d, [unit]);
    LowerDigits(d);
    var s := Lower(d + [unit] + rest);
    assert s == d + [u] + Lower(rest);
    assert s[..|d|] == d;
    assert s[|d|] == u;
    LeadingDigitsUnique(s, |d|);
    DigitsValueOfDigits(v);
  }

  /** Whatever follows a matched prefix does not change the result. */
  lemma {:induction false} MatchUsefulLifeIgnoresSuffix(text: string, suffix: string)
    requires MatchUsefulLife(text).Some?
    ensures MatchUsefulLife(text + suffix) == MatchUsefulLife(text)
  {
    var s, t := Lower(text), Lower(text + suffix);
    var n := LeadingDigits(s);
    assert forall i :: 0 <= i < |s| ==> t[i] == s[i];
    var m := LeadingDigits(t);
    assert m == n;
    assert t[..n] == s[..n];
  }

  /** `posting.meta` without the two directive keys, every other key kept. */
  function StripDirective(meta: Meta): (r: Meta)
    ensures r.Keys == meta.Keys - {UsefulLifeKey, ResidualValueKey}
    ensures forall k :: k in r ==> r[k] == meta[k]
  {
    meta - {UsefulLifeKey, ResidualValueKey}
  }

  /** The older copy's `try: del useful_life; del residual_value except
      KeyError: pass`: without `useful_life` nothing is removed. */
  function LegacyStripDirective(meta: Meta): (r: Meta)
    ensures UsefulLifeKey in meta ==> r == StripDirective(meta)
    ensures UsefulLifeKey !in meta ==> r == meta
  {
    if UsefulLifeKey in meta then meta - {UsefulLifeKey, ResidualValueKey} else meta
  }

  /** The two strip rules disagree exactly when `residual_value` is present
      without `useful_life`. */
  lemma LegacyStripDiffers(meta: Meta)
    ensures LegacyStripDirective(meta) != StripDirective(meta)
        <==> (UsefulLifeKey !in meta && ResidualValueKey in meta)
  {
    if UsefulLifeKey !in meta && ResidualValueKey in meta {
      assert ResidualValueKey !in StripDirective(meta);
    }
  }

  /** Stripping twice is stripping once. */
  lemma StripIdempotent(meta: Meta)
    ensures StripDirective(StripDirective(meta)) == StripDirective(meta)
    ensures LegacyStripDirective(StripDirective(meta)) == StripDirective(meta)
  {
  }

  /** `parse_useful_life_in_months`: a missing key is a KeyError; a value
      that is not a string, or that does not match, is a TypeError
      (`str.lower` of a number, subscripting the None of a failed match). */
  function ParseUsefulLifeInMonths(meta: Meta): (r: Result<nat>)
    ensures UsefulLifeKey !in meta ==> r == Err(KeyError(UsefulLifeKey))
    ensures r.Ok? <==> UsefulLifeKey in meta && meta[UsefulLifeKey].Text?
                       && StartsWithUsefulLife(meta[UsefulLifeKey].text)
    ensures r.Err? && UsefulLifeKey in meta ==> r.error == TypeError
    ensures r.Ok? ==> Some(r.value) == MatchUsefulLife(meta[UsefulLifeKey].text)
  {
    if UsefulLifeKey !in meta then Err(KeyError(UsefulLifeKey))
    else match meta[UsefulLifeKey]
      case Number(_) => Err(TypeError)
      case Text(t) =>
        MatchUsefulLifeExactly(t);
        match MatchUsefulLife(t)
        case None => Err(TypeError)
        case Some(months) => Ok(months)
  }

  /** The older copy: a failed match fails at `m.group` (AttributeError). */
  function LegacyParseUsefulLife(meta: Meta): (r: Result<nat>)
    ensures UsefulLifeKey !in meta ==> r == Err(KeyError(UsefulLifeKey))
    ensures r.Ok? <==> ParseUsefulLifeInMonths(meta).Ok?
    ensures r.Ok? ==> r == ParseUsefulLifeInMonths(meta)
    ensures r.Err? && UsefulLifeKey in meta && meta[UsefulLifeKey].Text? ==> r.error == AttributeError
  {
    if UsefulLifeKey !in meta then Err(KeyError(UsefulLifeKey))
    else match meta[UsefulLifeKey]
      case Number(_) => Err(TypeError)
      case Text(t) =>
        MatchUsefulLifeExactly(t);
        match MatchUsefulLife(t)
        case None => Err(AttributeError)
        case Some(months) => Ok(months)
  }

  /** `parse_residual_value`: 0 when absent, otherwise rounded half-even to
      cents; a string value fails (`round` of a string is a TypeError). */
  function ParseResidualValue(meta: Meta): (r: Result<real>)
    ensures ResidualValueKey !in meta ==> r == Ok(0.0)
    ensures r.Err? <==> ResidualValueKey in meta && meta[ResidualValueKey].Text?
    ensures r.Err? ==> r.error == TypeError
    ensures r.Ok? ==> OnGrid(r.value, 100)
    ensures r.Ok? && ResidualValueKey in meta ==>
              -0.5 <= (meta[ResidualValueKey].number - r.value) * 100.0 <= 0.5
    ensures r.Ok? && ResidualValueKey in meta ==> r.value == Quantize(meta[ResidualValueKey].number, 100)
  {
    if ResidualValueKey !in meta then
      assert OnGrid(0.0, 100);
      Ok(0.0)
    else match meta[ResidualValueKey]
      case Text(_) => Err(TypeError)
      case Number(v) => Ok(Quantize(v, 100))
  }

  /** The older copy: `float(meta['residual_value'])`, 0.0 when absent, used
      unrounded. A string value is reported as a ValueError (see README). */
  function LegacyResidualValue(meta: Meta): (r: Result<real>)
    ensures ResidualValueKey !in meta ==> r == Ok(0.0)
    ensures r.Err? <==> ResidualValueKey in meta && meta[ResidualValueKey].Text?
    ensures r.Err? ==> r.error == ValueError
    ensures r.Ok? && ResidualValueKey in meta ==> r.value == meta[ResidualValueKey].number
  {
    if ResidualValueKey !in meta then Ok(0.0)
    else match meta[ResidualValueKey]
      case Text(_) => Err(ValueError)
      case Number(v) => Ok(v)
  }
}
