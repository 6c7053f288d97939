/** The activation banner logic of `src/hooks/use-stellar-activation.ts`, in
    its steady state (after the loading flag's effect has run). */
module Activation {
  import opened Wrappers
  import opened Strings
  import opened Amounts
  import opened Balances
  import opened Ledger

  /** `isAccountLoading`: a key is bound but the account is still `undefined`. */
  predicate IsAccountLoading(account: AccountState, publicKey: Option<string>) {
    Present(publicKey) && account.NotLoaded?
  }

  /** Only the fetch still in flight counts as loading: no key, an account
      found missing (`null`) and a loaded account never do. */
  lemma LoadingOnlyWhileFetching(account: AccountState, publicKey: Option<string>)
    ensures IsAccountLoading(account, publicKey) ==> Present(publicKey)
    ensures account.NotFound? ==> !IsAccountLoading(account, publicKey)
    ensures account.Loaded? ==> !IsAccountLoading(account, publicKey)
    ensures Present(publicKey) && account.NotLoaded? ==> IsAccountLoading(account, publicKey)
  {
  }

  /** The account is loaded, has balance lines, and its first native line does
      not read as zero (a line that does not parse, `NaN`, is not zero). */
  predicate HoldsNonZeroNative(account: AccountState) {
    && account.Loaded?
    && account.account.balances.Some?
    && var bs := account.account.balances.value;
       var i := FindNative(bs);
       i.Some? && ParseStroops(bs[i.value].balance) != Some(0)
  }

  /** `needsActivation`. */
  function NeedsActivation(account: AccountState, publicKey: Option<string>): (r: bool)
    ensures r <==> !IsAccountLoading(account, publicKey)
                   && (Present(publicKey) || account.Loaded?)
                   && !HoldsNonZeroNative(account)
    ensures IsAccountLoading(account, publicKey) ==> !r
    ensures Present(publicKey) && account.NotFound? ==> r
    ensures !Present(publicKey) && !account.Loaded? ==> !r
  {
    var loading := IsAccountLoading(account, publicKey);
    if loading then false
    else if Present(publicKey) && (account.NotLoaded? || account.NotFound?) then true
    else if account.Loaded? && (account.account.balances.None? || |account.account.balances.value| == 0) then true
    else if account.Loaded? && account.account.balances.Some? then
      var bs := account.account.balances.value;
      match FindNative(bs)
      case None => true
      case Some(i) => ParseStroops(bs[i].balance) == Some(0)
    else false
  }

  /** A loaded account with no balance lines, or without a native line, or
      whose native line reads zero, needs activation; a positive native
      balance does not. */
  lemma LoadedAccountActivation(a: Account, publicKey: Option<string>)
    ensures a.balances.None? ==> NeedsActivation(Loaded(a), publicKey)
    ensures a.balances.Some? && |a.balances.value| == 0 ==> NeedsActivation(Loaded(a), publicKey)
    ensures a.balances.Some? && FindNative(a.balances.value).None? ==> NeedsActivation(Loaded(a), publicKey)
    ensures a.balances.Some? && FindNative(a.balances.value).Some?
      ==> var line := a.balances.value[FindNative(a.balances.value).value];
          (ParseStroops(line.balance) == Some(0) ==> NeedsActivation(Loaded(a), publicKey))
          && (forall n: nat :: n > 0 && ParseStroops(line.balance) == Some(n) ==> !NeedsActivation(Loaded(a), publicKey))
  {
  }
}
