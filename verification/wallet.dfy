/** `useStellarWallet` of `src/hooks/use-stellar-wallet.ts`: the embedded
    Stellar wallets among the user's linked accounts, the loading flag, and
    the steady-state choice between creating a wallet and binding its key. */
module StellarWallet {
  import opened Wrappers
  import opened Calls

  /** A Privy linked account, with the fields the filter reads. */
  datatype LinkedAccount = LinkedAccount(accountType: string, walletClientType: Option<string>, chainType: Option<string>, address: string)

  datatype User = User(linkedAccounts: seq<LinkedAccount>)

  predicate IsStellarEmbedded(a: LinkedAccount) {
    a.accountType == "wallet" && a.walletClientType == Some("privy") && a.chainType == Some("stellar")
  }

  /** `linkedAccounts.filter(...)`, in order. */
  function FilterStellar(s: seq<LinkedAccount>): (r: seq<LinkedAccount>)
    ensures |r| <= |s|
    ensures forall a :: a in r <==> a in s && IsStellarEmbedded(a)
  {
    if |s| == 0 then []
    else if IsStellarEmbedded(s[0]) then [s[0]] + FilterStellar(s[1..])
    else FilterStellar(s[1..])
  }

  /** The filter keeps the original order: filtering a concatenation is
      concatenating the filtered parts. */
  lemma {:induction false} FilterDistributes(a: seq<LinkedAccount>, b: seq<LinkedAccount>)
    ensures FilterStellar(a + b) == FilterStellar(a) + FilterStellar(b)
  {
    if |a| == 0 {
      assert a + b == b;
    } else {
      assert (a + b)[1..] == a[1..] + b;
      FilterDistributes(a[1..], b);
    }
  }

  /** The first wallet kept is the first qualifying linked account. */
  lemma {:induction false} FirstWalletIsFirstMatch(s: seq<LinkedAccount>, k: nat)
    requires k < |s| && IsStellarEmbedded(s[k])
    requires forall j :: 0 <= j < k ==> !IsStellarEmbedded(s[j])
    ensures |FilterStellar(s)| > 0 && FilterStellar(s)[0] == s[k]
  {
    if k > 0 {
      FirstWalletIsFirstMatch(s[1..], k - 1);
    }
  }

  /** `stellarEmbeddedWallets`: empty without a user. */
  function EmbeddedWallets(user: Option<User>): (r: seq<LinkedAccount>)
    ensures user.None? ==> r == []
    ensures user.Some? ==> r == FilterStellar(user.value.linkedAccounts)
  {
    match user
    case None => []
    case Some(u) => FilterStellar(u.linkedAccounts)
  }

  /** `isLoading`. */
  predicate IsLoading(ready: bool, authenticated: bool, user: Option<User>, isCreating: bool) {
    !ready || (authenticated && user.None?) || isCreating || (user.Some? && |EmbeddedWallets(user)| == 0)
  }

  /** What the auto-create effect does. */
  datatype WalletEffect = CreateWalletEffect | BindPublicKey(address: string) | NoEffect

  /** The auto-create effect: create a wallet when a signed-in user has none
      and no creation is under way; otherwise bind the first wallet's address
      whenever there is one. */
  function AutoEffect(ready: bool, authenticated: bool, user: Option<User>, isCreating: bool): (r: WalletEffect)
    ensures r == CreateWalletEffect <==>
      ready && authenticated && user.Some? && |EmbeddedWallets(user)| == 0 && !isCreating
    ensures r.BindPublicKey? <==> |EmbeddedWallets(user)| > 0
    ensures r.BindPublicKey? ==> r.address == EmbeddedWallets(user)[0].address
  {
    var wallets := EmbeddedWallets(user);
    if ready && authenticated && user.Some? && |wallets| == 0 && !isCreating then CreateWalletEffect
    else if |wallets| > 0 then BindPublicKey(wallets[0].address)
    else NoEffect
  }

  /** The redirect effect: home when Privy is ready and nobody is signed in. */
  function RedirectEffect(ready: bool, authenticated: bool): (r: seq<Call>)
    ensures r == [Navigate("/")] <==> ready && !authenticated
    ensures r == [] <==> !(ready && !authenticated)
  {
    if ready && !authenticated then [Navigate("/")] else []
  }

  /** `handleCreateWallet`: create, then refresh the user; a failure of either
      is swallowed, and `isCreating` ends false. */
  datatype Creation = Creation(isCreating: bool, trace: seq<Call>)

  function HandleCreateWallet(createSucceeds: bool): (r: Creation)
    ensures !r.isCreating
    ensures |r.trace| >= 1 && r.trace[0] == CreateWallet("stellar")
    ensures RefreshUser in r.trace <==> createSucceeds
  {
    if createSucceeds then Creation(false, [CreateWallet("stellar"), RefreshUser])
    else Creation(false, [CreateWallet("stellar")])
  }

  /** A wallet is created only while the hook reports loading, so the page
      never shows a ready state with a creation pending. */
  lemma CreationOnlyWhileLoading(ready: bool, authenticated: bool, user: Option<User>, isCreating: bool)
    requires AutoEffect(ready, authenticated, user, isCreating) == CreateWalletEffect
    ensures IsLoading(ready, authenticated, user, isCreating)
  {
  }

  /** When the hook stops reporting loading, Privy is ready, no creation is
      running, a signed-in user has arrived, and any user has a Stellar wallet,
      so the auto-create effect has nothing to create. */
  lemma NotLoadingMeansSettled(ready: bool, authenticated: bool, user: Option<User>, isCreating: bool)
    requires !IsLoading(ready, authenticated, user, isCreating)
    ensures ready && !isCreating
    ensures authenticated ==> user.Some?
    ensures user.Some? ==> |EmbeddedWallets(user)| > 0
    ensures AutoEffect(ready, authenticated, user, isCreating) != CreateWalletEffect
  {
  }

  /** Once loading is over for a signed-in user, the effect binds the first
      embedded wallet's address. */
  lemma ReadyUserBindsFirstWallet(ready: bool, authenticated: bool, user: Option<User>, isCreating: bool)
    requires !IsLoading(ready, authenticated, user, isCreating) && user.Some?
    ensures AutoEffect(ready, authenticated, user, isCreating) == BindPublicKey(EmbeddedWallets(user)[0].address)
  {
  }

  /** The account types and chains that are not embedded Stellar wallets never
      reach the key binding. */
  lemma BoundAddressIsEmbeddedStellar(ready: bool, authenticated: bool, user: Option<User>, isCreating: bool)
    requires AutoEffect(ready, authenticated, user, isCreating).BindPublicKey?
    ensures exists a :: (a in user.value.linkedAccounts && IsStellarEmbedded(a)
      && a.address == AutoEffect(ready, authenticated, user, isCreating).address)
  {
    var w := EmbeddedWallets(user)[0];
    assert w in EmbeddedWallets(user);
  }
}
