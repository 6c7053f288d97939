/** The Stellar context of `src/providers/stellar.provider.tsx`: the connected
    public key, the cached account (`undefined` / `null` / response) and the
    operations that refresh it or build transactions from a fresh load. Each
    Horizon call is an oracle outcome and is recorded in the call trace. */
module StellarProvider {
  import opened Wrappers
  import opened Strings
  import opened Js
  import opened AssetConfig
  import opened Ledger
  import opened Calls
  import Amounts

  datatype ProviderState = ProviderState(publicKey: Option<string>, account: AccountState)

  /** Both state cells start `undefined`. */
  const INITIAL_STATE: ProviderState := ProviderState(None, NotLoaded)

  /** `isConnected: !!publicKey`. */
  predicate IsConnected(st: ProviderState) {
    Present(st.publicKey)
  }

  /** A state change together with the toasts raised and the calls made. */
  datatype Effect = Effect(state: ProviderState, notices: seq<Notice>, trace: seq<Call>)

  /** `getAccountInfo(key)`: a loaded response replaces the cache, a
      not-found rejection sets it to `null`, and any other rejection leaves the
      cache as it was and raises a toast. The public key is never touched. */
  function GetAccountInfo(st: ProviderState, key: string, load: LoadOutcome): (r: Effect)
    ensures r.trace == [LoadAccount(key)]
    ensures r.state.publicKey == st.publicKey
    ensures r.state.account == Loaded(load.account) <== load.LoadOk?
    ensures load.LoadFailed? && load.error.accountNotFound ==> r.state.account == NotFound
    ensures load.LoadFailed? && !load.error.accountNotFound ==>
      r.state == st && r.notices == [ErrorToast(MessageOr(load.error.thrown, "Failed to get account info"))]
    ensures |r.notices| > 0 <==> load.LoadFailed? && !load.error.accountNotFound
  {
    match load
    case LoadOk(data) => Effect(st.(account := Loaded(data)), [], [LoadAccount(key)])
    case LoadFailed(e) =>
      if e.accountNotFound then Effect(st.(account := NotFound), [], [LoadAccount(key)])
      else Effect(st, [ErrorToast(MessageOr(e.thrown, "Failed to get account info"))], [LoadAccount(key)])
  }

  /** `refreshAccount`: a no-op without a (truthy) public key. */
  function RefreshAccount(st: ProviderState, load: LoadOutcome): (r: Effect)
    ensures !IsConnected(st) ==> r == Effect(st, [], [])
    ensures IsConnected(st) ==> r == GetAccountInfo(st, st.publicKey.value, load)
  {
    if IsConnected(st) then GetAccountInfo(st, st.publicKey.value, load) else Effect(st, [], [])
  }

  /** `disconnect`: both cells back to `undefined`. */
  function Disconnect(st: ProviderState): (r: ProviderState)
    ensures r == INITIAL_STATE
    ensures !IsConnected(r) && r.account.NotLoaded?
  {
    INITIAL_STATE
  }

  /** `setPublicKey(key)`; the account cache is left to the effect that follows. */
  function SetPublicKey(st: ProviderState, key: string): (r: ProviderState)
    ensures r.publicKey == Some(key) && r.account == st.account
    ensures IsConnected(r) <==> Truthy(key)
  {
    st.(publicKey := Some(key))
  }

  /** The cache only ever holds what the last decisive load said: after a
      refresh it is the previous cache, `null`, or the very response loaded. */
  lemma RefreshReplacesWholesale(st: ProviderState, load: LoadOutcome)
    ensures var a := RefreshAccount(st, load).state.account;
      a == st.account || a == NotFound || (load.LoadOk? && a == Loaded(load.account))
    ensures RefreshAccount(st, load).state.publicKey == st.publicKey
  {
  }

  /** Refreshing twice with the same Horizon answer is refreshing once, apart
      from the second call and its toast. */
  lemma RefreshIdempotent(st: ProviderState, load: LoadOutcome)
    ensures var once := RefreshAccount(st, load);
      RefreshAccount(once.state, load).state == once.state
  {
  }

  /** After `disconnect`, refreshing makes no Horizon call and changes nothing. */
  lemma RefreshAfterDisconnect(st: ProviderState, load: LoadOutcome)
    ensures RefreshAccount(Disconnect(st), load) == Effect(INITIAL_STATE, [], [])
  {
  }

  /** A successful connect-and-refresh caches exactly the loaded account. */
  lemma ConnectThenLoad(st: ProviderState, key: string, account: Account)
    requires Truthy(key)
    ensures var r := RefreshAccount(SetPublicKey(st, key), LoadOk(account));
      r.state == ProviderState(Some(key), Loaded(account)) && r.trace == [LoadAccount(key)] && r.notices == []
  {
  }

  // ---------------------------------------------------------------------------
  // Transactions built from a fresh load

  /** A computation whose result is an `Outcome`, with the calls it made. */
  datatype Built<T> = Built(result: Outcome<T>, trace: seq<Call>)

  /** The maximum trustline limit: 2^63 - 1 stroops written as a decimal amount. */
  const TRUSTLINE_LIMIT: string := "922337203685.4775807"

  const ACTIVATION_REQUIRED: string :=
    "Account needs to be activated before enabling USDC trustline. Please fund your account with XLM first."

  /** The USDC credit asset, `new Asset(USDC_ASSET.code, USDC_ASSET.issuer)`. */
  const USDC: Asset := CreditAsset(USDC_ASSET.code, USDC_ISSUER)

  /** The change-trust transaction for USDC built on a freshly loaded account. */
  function TrustlineTransaction(loaded: Account): Transaction {
    Transaction(loaded, BASE_FEE, PUBLIC_PASSPHRASE, [ChangeTrust(USDC, TRUSTLINE_LIMIT)], None, 30)
  }

  /** `enableUsdcTrustline`: without a connected key it throws before any
      call; otherwise it loads the account afresh (never the cached one) and
      builds one change-trust operation; a not-found rejection becomes the
      activation message and any other rejection is rethrown. */
  function EnableUsdcTrustline(st: ProviderState, load: LoadOutcome): (r: Built<Transaction>)
    ensures !IsConnected(st) ==> r == Built(Threw(ErrorObject("No account connected")), [])
    ensures IsConnected(st) ==> r.trace == [LoadAccount(st.publicKey.value)]
    ensures r.result.Returned? <==> IsConnected(st) && load.LoadOk?
    ensures r.result.Returned? ==>
      var tx := r.result.value;
      tx.source == load.account && tx.fee == BASE_FEE && tx.networkPassphrase == PUBLIC_PASSPHRASE
      && tx.operations == [ChangeTrust(CreditAsset("USDC", USDC_ISSUER), TRUSTLINE_LIMIT)]
      && tx.memo.None? && tx.timeoutSeconds == 30
    ensures IsConnected(st) && load.LoadFailed? ==>
      r.result == Threw(if load.error.accountNotFound then ErrorObject(ACTIVATION_REQUIRED) else load.error.thrown)
  {
    if !IsConnected(st) then Built(Threw(ErrorObject("No account connected")), [])
    else
      var trace := [LoadAccount(st.publicKey.value)];
      match load
      case LoadOk(loaded) => Built(Returned(TrustlineTransaction(loaded)), trace)
      case LoadFailed(e) =>
        if e.accountNotFound then Built(Threw(ErrorObject(ACTIVATION_REQUIRED)), trace)
        else Built(Threw(e.thrown), trace)
  }

  lemma NatToStringStep(m: nat, d: nat)
    requires m >= 1 && d < 10
    ensures NatToString(10 * m + d) == NatToString(m) + [DigitChar(d)]
  {
    assert (10 * m + d) / 10 == m && (10 * m + d) % 10 == d;
  }

  lemma PadDigitsStep(m: nat, w: nat, d: nat, p: string, c: char)
    requires d < 10 && DigitChar(d) == c && Amounts.PadDigits(m, w) == p
    ensures Amounts.PadDigits(10 * m + d, w + 1) == p + [c]
  {
    assert (10 * m + d) / 10 == m && (10 * m + d) % 10 == d;
  }

  lemma LimitWholeDigits()
    ensures NatToString(922337203685) == "922337203685"
  {
    NatToStringStep(9, 2);
    NatToStringStep(92, 2);
    NatToStringStep(922, 3);
    NatToStringStep(9223, 3);
    NatToStringStep(92233, 7);
    NatToStringStep(922337, 2);
    NatToStringStep(9223372, 0);
    NatToStringStep(92233720, 3);
    NatToStringStep(922337203, 6);
    NatToStringStep(9223372036, 8);
    NatToStringStep(92233720368, 5);
  }

  lemma LimitFractionHead()
    ensures Amounts.PadDigits(477, 3) == "477"
  {
    assert Amounts.PadDigits(4, 1) == "4";
    PadDigitsStep(4, 1, 7, "4", '7');
    PadDigitsStep(47, 2, 7, "47", '7');
  }

  lemma LimitFractionDigits()
    ensures Amounts.PadDigits(4775807, 7) == "4775807"
  {
    LimitFractionHead();
    PadDigitsStep(477, 3, 5, "477", '5');
    PadDigitsStep(4775, 4, 8, "4775", '8');
    PadDigitsStep(47758, 5, 0, "47758", '0');
    PadDigitsStep(477580, 6, 7, "477580", '7');
  }

  lemma LimitDivMod()
    ensures 0x7FFF_FFFF_FFFF_FFFF / Amounts.STROOPS_PER_UNIT == 922337203685
    ensures 0x7FFF_FFFF_FFFF_FFFF % Amounts.STROOPS_PER_UNIT == 4775807
  {
  }

  lemma LimitFormatted()
    ensures Amounts.FormatStroops(0x7FFF_FFFF_FFFF_FFFF) == TRUSTLINE_LIMIT
  {
    LimitDivMod();
    LimitWholeDigits();
    LimitFractionDigits();
    assert Amounts.FormatStroops(0x7FFF_FFFF_FFFF_FFFF) == "922337203685" + "." + "4775807";
  }

  lemma ParseOfFormatted(s: string, n: nat)
    requires Amounts.FormatStroops(n) == s
    ensures Amounts.ParseStroops(s) == Some(n)
  {
    Amounts.ParseFormatRoundTrip(n);
  }

  /** The limit is the largest signed 64-bit stroop amount. */
  lemma TrustlineLimitIsInt64Max()
    ensures Amounts.ParseStroops(TRUSTLINE_LIMIT) == Some(0x7FFF_FFFF_FFFF_FFFF)
  {
    LimitFormatted();
    ParseOfFormatted(TRUSTLINE_LIMIT, 0x7FFF_FFFF_FFFF_FFFF);
  }

  /** The transaction does not depend on the cached account: two states with
      the same key build the same transaction from the same load. */
  lemma TrustlineIgnoresCache(a: ProviderState, b: ProviderState, load: LoadOutcome)
    requires a.publicKey == b.publicKey
    ensures EnableUsdcTrustline(a, load) == EnableUsdcTrustline(b, load)
  {
  }

  /** `convertXlmToUsdc(amount)`: a strict-send path search from XLM to USDC;
      an empty or missing record list throws, otherwise the first record is
      the best path. Rejections are rethrown unchanged. */
  function ConvertXlmToUsdc(amount: string, paths: PathsOutcome): (r: Built<PathRecord>)
    ensures r.trace == [StrictSendPaths(NativeAsset, amount, [USDC_ASSET.LedgerAsset()])]
    ensures r.result.Returned? <==> paths.PathsOk? && paths.records.Some? && |paths.records.value| > 0
    ensures r.result.Returned? ==> r.result.value == paths.records.value[0]
    ensures paths.PathsThrew? ==> r.result == Threw(paths.error)
    ensures paths.PathsOk? && (paths.records.None? || |paths.records.value| == 0) ==>
      r.result == Threw(ErrorObject("No exchange rate found for XLM swap"))
  {
    var trace := [StrictSendPaths(NativeAsset, amount, [USDC_ASSET.LedgerAsset()])];
    match paths
    case PathsThrew(e) => Built(Threw(e), trace)
    case PathsOk(records) =>
      if records.None? || |records.value| == 0 then Built(Threw(ErrorObject("No exchange rate found for XLM swap")), trace)
      else Built(Returned(records.value[0]), trace)
  }
}
