/** Plugin configuration and the test that picks out depreciable postings.
    The configuration arrives already evaluated, as an optional map from key
    to string (no configuration at all behaves like an empty map); whether an
    account name is well formed is the ledger's own rule, passed in as
    `isValid`. Both copies of the plugin resolve the three settings the same
    way. */
module Config {
  import opened Results
  import opened Ledger
  import Directive

  const DefaultAssetsAccount := "Assets:Wealth:Fixed-Assets"
  const DefaultExpensesAccount := "Expenses:Property-Expenses:Depreciation"
  const DefaultMethod := "parabola"

  function ConfigDict(config: Option<map<string, string>>): map<string, string> {
    match config
    case None => map[]
    case Some(d) => d
  }

  /** The configured account when present and valid, else the default. */
  function ReadAssetsAccountFromConfig(config: Option<map<string, string>>, isValid: string -> bool): (account: string)
    ensures var d := ConfigDict(config);
      if "assets" in d && isValid(d["assets"]) then account == d["assets"]
      else account == DefaultAssetsAccount
  {
    var d := ConfigDict(config);
    var candidate := if "assets" in d then d["assets"] else DefaultAssetsAccount;
    if !isValid(candidate) then DefaultAssetsAccount else candidate
  }

  function ReadExpensesAccountFromConfig(config: Option<map<string, string>>, isValid: string -> bool): (account: string)
    ensures var d := ConfigDict(config);
      if "expenses" in d && isValid(d["expenses"]) then account == d["expenses"]
      else account == DefaultExpensesAccount
  {
    var d := ConfigDict(config);
    var candidate := if "expenses" in d then d["expenses"] else DefaultExpensesAccount;
    if !isValid(candidate) then DefaultExpensesAccount else candidate
  }

  /** The configured method, unvalidated, else "parabola". */
  function ReadDepreciationMethodFromConfig(config: Option<map<string, string>>): (name: string)
    ensures var d := ConfigDict(config);
      if "method" in d then name == d["method"] else name == DefaultMethod
  {
    var d := ConfigDict(config);
    if "method" in d then d["method"] else DefaultMethod
  }

  /** A posting is depreciated when its metadata carries `useful_life` and it
      sits on the assets account. */
  function IsPostingADepreciation(p: Posting, assetsAccount: string): (b: bool)
    ensures b <==> Directive.UsefulLifeKey in p.meta && p.account == assetsAccount
  {
    |p.meta| > 0 && Directive.UsefulLifeKey in p.meta && p.account == assetsAccount
  }

  /** With an invalid configured assets account, postings on the default
      account are still detected. */
  lemma InvalidAssetsAccountFallsBack(config: Option<map<string, string>>, isValid: string -> bool, p: Posting)
    requires config.Some? && "assets" in config.value && !isValid(config.value["assets"])
    requires Directive.UsefulLifeKey in p.meta && p.account == DefaultAssetsAccount
    ensures IsPostingADepreciation(p, ReadAssetsAccountFromConfig(config, isValid))
  {
  }
}
