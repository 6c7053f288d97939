/** The derived balance views of `src/hooks/use-stellar-balances.ts`. */
module BalanceViews {
  import opened Wrappers
  import opened AssetConfig
  import opened Balances
  import opened Ledger

  /** `account?.balances`. */
  function AccountBalances(account: AccountState): Option<seq<StellarBalance>> {
    if account.Loaded? then account.account.balances else None
  }

  /** `formattedBalances`: empty without balances, otherwise the display list. */
  function FormattedBalances(account: AccountState): (r: seq<FormattedBalance>)
    ensures AccountBalances(account).None? ==> r == []
    ensures AccountBalances(account).Some? ==> r == FormatStellarBalances(AccountBalances(account).value)
  {
    match AccountBalances(account)
    case None => []
    case Some(bs) => FormatStellarBalances(bs)
  }

  /** A line for USDC from the configured issuer. */
  predicate IsUsdcTrustline(b: StellarBalance) {
    b.assetCode == Some(USDC_ASSET.code) && b.assetIssuer == USDC_ASSET.issuer
  }

  /** A line whose code is USDC, whoever the issuer. */
  predicate HasUsdcCode(b: StellarBalance) {
    b.assetCode == Some(USDC_ASSET.code)
  }

  function AnyUsdcTrustline(bs: seq<StellarBalance>): (r: bool)
    ensures r <==> exists i :: 0 <= i < |bs| && IsUsdcTrustline(bs[i])
  {
    if |bs| == 0 then false
    else if IsUsdcTrustline(bs[0]) then true
    else
      var rest := AnyUsdcTrustline(bs[1..]);
      assert forall i :: 1 <= i < |bs| ==> bs[i] == bs[1..][i - 1];
      rest
  }

  /** `hasUsdcTrustline`. */
  function HasUsdcTrustline(account: AccountState): (r: bool)
    ensures r <==> AccountBalances(account).Some?
                   && exists i :: 0 <= i < |AccountBalances(account).value| && IsUsdcTrustline(AccountBalances(account).value[i])
  {
    match AccountBalances(account)
    case None => false
    case Some(bs) => AnyUsdcTrustline(bs)
  }

  /** `usdcBalance`: `0` without balances, else the first USDC-coded line's
      text, or `undefined` when there is none. */
  datatype UsdcBalanceView = NoBalances | FirstUsdcLine(balance: string) | NoUsdcLine

  function FindUsdcCode(bs: seq<StellarBalance>): (r: Option<nat>)
    ensures r.Some? ==> r.value < |bs| && HasUsdcCode(bs[r.value])
    ensures r.Some? ==> forall j :: 0 <= j < r.value ==> !HasUsdcCode(bs[j])
    ensures r.None? ==> forall j :: 0 <= j < |bs| ==> !HasUsdcCode(bs[j])
  {
    if |bs| == 0 then None
    else if HasUsdcCode(bs[0]) then Some(0)
    else
      match FindUsdcCode(bs[1..])
      case None => None
      case Some(k) => Some(k + 1)
  }

  function UsdcBalance(account: AccountState): (r: UsdcBalanceView)
    ensures AccountBalances(account).None? <==> r.NoBalances?
    ensures r.FirstUsdcLine? ==>
      var bs := AccountBalances(account).value;
      exists i :: (0 <= i < |bs| && HasUsdcCode(bs[i]) && bs[i].balance == r.balance
                   && forall j :: 0 <= j < i ==> !HasUsdcCode(bs[j]))
    ensures r.NoUsdcLine? ==>
      var bs := AccountBalances(account).value;
      forall j :: 0 <= j < |bs| ==> !HasUsdcCode(bs[j])
  {
    match AccountBalances(account)
    case None => NoBalances
    case Some(bs) =>
      match FindUsdcCode(bs)
      case None => NoUsdcLine
      case Some(i) => FirstUsdcLine(bs[i].balance)
  }

  /** Without balances every view is empty. */
  lemma NoBalancesViews(account: AccountState)
    requires AccountBalances(account).None?
    ensures FormattedBalances(account) == [] && !HasUsdcTrustline(account) && UsdcBalance(account) == NoBalances
  {
  }

  /** A USDC-coded line from a foreign issuer counts for `usdcBalance` but not
      for `hasUsdcTrustline`. */
  lemma ForeignUsdcCountsOnlyForBalance(a: Account, b: StellarBalance)
    requires a.balances == Some([b])
    requires HasUsdcCode(b) && b.assetIssuer != USDC_ASSET.issuer
    ensures !HasUsdcTrustline(Loaded(a))
    ensures UsdcBalance(Loaded(a)) == FirstUsdcLine(b.balance)
  {
  }

  /** A trustline line is always a USDC-coded line, so a trustline implies a
      USDC balance view. */
  lemma TrustlineImpliesBalance(account: AccountState)
    requires HasUsdcTrustline(account)
    ensures UsdcBalance(account).FirstUsdcLine?
  {
    var bs := AccountBalances(account).value;
    var i :| 0 <= i < |bs| && IsUsdcTrustline(bs[i]);
    assert HasUsdcCode(bs[i]);
  }
}
