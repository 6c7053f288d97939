/** `enableUsdc` of `src/hooks/use-stellar-trustline.ts`: the session guard,
    the 1.5 XLM reserve check, building the change-trust transaction, signing
    its hash with the embedded wallet, submitting it and reporting the
    outcome as a toast. */
module TrustlineFlow {
  import opened Wrappers
  import opened Strings
  import opened Js
  import opened Balances
  import opened Ledger
  import opened Calls
  import opened Auth
  import opened StellarProvider
  import opened Amounts

  /** `balanceInfo` of the insufficient-balance dialog, in stroops. */
  datatype BalanceInfo = BalanceInfo(current: nat, required: nat)

  /** 1.5 XLM. */
  const REQUIRED_RESERVE: nat := 15_000_000

  const ENABLED: string := "USDC trustline enabled successfully!"
  const ALREADY_EXISTS: string := "USDC trustline already exists on your account"
  const NO_SERVER: string := "Stellar server not available"
  const ENABLE_FAILED: string := "Failed to enable USDC"

  /** The answers of the calls the hook makes: the provider's fresh load, the
      wallet's signature, whether `refreshUser` resolves, the submission, the
      load behind `refreshAccount` afterwards, and what
      `getStellarErrorMessage(undefined)` returns. */
  datatype Script = Script(
    load: LoadOutcome,
    sign: SignOutcome,
    refreshUserSucceeds: bool,
    submit: SubmitOutcome,
    refreshLoad: LoadOutcome,
    messageForUndefined: string)

  /** The hook's state after the call: the provider's state, `isEnabling`,
      the dialog (when shown), the toasts and the calls. */
  datatype Run = Run(provider: ProviderState, isEnabling: bool, dialog: Option<BalanceInfo>, notices: seq<Notice>, trace: seq<Call>)

  predicate LoggedIn(session: Session, st: ProviderState) {
    session.ready && session.authenticated && session.hasUser && IsConnected(st)
  }

  /** The native balance the reserve check compares, in stroops: a missing
      native line counts as zero, unreadable text is `None` (`NaN`). */
  function CheckedBalance(bs: seq<StellarBalance>): (r: Option<nat>)
    ensures GetNativeBalance(bs).None? ==> r == Some(0)
    ensures GetNativeBalance(bs).Some? ==> r == ParseStroops(GetNativeBalance(bs).value)
  {
    match GetNativeBalance(bs)
    case None => Some(0)
    case Some(text) => ParseStroops(text)
  }

  /** The reserve check runs only when the cached account lists its balances
      (an empty list included); `NaN < 1.5` is false, so unreadable text passes. */
  function InsufficientReserve(account: AccountState): (r: Option<BalanceInfo>)
    ensures r.Some? ==> r.value.required == REQUIRED_RESERVE && r.value.current < REQUIRED_RESERVE
    ensures r.Some? <==> (account.Loaded? && account.account.balances.Some?
      && CheckedBalance(account.account.balances.value).Some?
      && CheckedBalance(account.account.balances.value).value < REQUIRED_RESERVE)
    ensures r.Some? ==> r.value.current == CheckedBalance(account.account.balances.value).value
  {
    if account.Loaded? && account.account.balances.Some? then
      match CheckedBalance(account.account.balances.value)
      case Some(current) =>
        if current < REQUIRED_RESERVE then Some(BalanceInfo(current, REQUIRED_RESERVE)) else None
      case None => None
    else None
  }

  /** The outer `catch`: `toast.error(error.message || "Failed to enable USDC")`. */
  function FailureToast(e: Thrown): Notice {
    ErrorToast(MessageOr(e, ENABLE_FAILED))
  }

  /** A successful or already-existing trustline: a toast, then `refreshAccount`. */
  function ReportAndRefresh(st: ProviderState, signed: SignedTx, notice: Notice, refreshLoad: LoadOutcome): (r: Effect)
    ensures |r.trace| >= 1 && r.trace[0] == SubmitTransaction(signed)
    ensures |r.notices| >= 1 && r.notices[0] == notice
    ensures var refreshed := RefreshAccount(st, refreshLoad);
      r.state == refreshed.state && r.trace[1..] == refreshed.trace && r.notices[1..] == refreshed.notices
  {
    var refreshed := RefreshAccount(st, refreshLoad);
    Effect(refreshed.state, [notice] + refreshed.notices, [SubmitTransaction(signed)] + refreshed.trace)
  }

  /** The submission stage. A failed result's own message is thrown inside
      the `try` and caught by its `catch`, which rethrows the message derived
      from `errors?.response?.data`, absent on that error: the toast carries
      the message for `undefined`. */
  function SubmitStage(st: ProviderState, serverAvailable: bool, signed: SignedTx, script: Script): (r: Effect)
    ensures !serverAvailable ==> r == Effect(st, [ErrorToast(NO_SERVER)], [])
    ensures serverAvailable ==> |r.trace| >= 1 && r.trace[0] == SubmitTransaction(signed)
    ensures (serverAvailable && script.submit.Submitted? && !script.submit.result.successful
      && !script.submit.result.trustlineAlreadyExists) ==>
      r == Effect(st, [FailureToast(ErrorObject(script.messageForUndefined))], [SubmitTransaction(signed)])
    ensures (serverAvailable && script.submit.SubmitThrew?) ==>
      r == Effect(st, [FailureToast(ErrorObject(script.submit.responseDataMessage))], [SubmitTransaction(signed)])
    ensures (serverAvailable && script.submit.Submitted?
      && (script.submit.result.successful || script.submit.result.trustlineAlreadyExists)) ==>
      var refreshed := RefreshAccount(st, script.refreshLoad);
      var notice := if script.submit.result.successful then SuccessToast(ENABLED) else InfoToast(ALREADY_EXISTS);
      r.state == refreshed.state && r.notices == [notice] + refreshed.notices
      && r.trace == [SubmitTransaction(signed)] + refreshed.trace
    ensures |r.notices| >= 1
    ensures r.notices[0].SuccessToast? <==> serverAvailable && script.submit.Submitted? && script.submit.result.successful
    ensures r.notices[0].InfoToast? <==> (serverAvailable && script.submit.Submitted? && !script.submit.result.successful
      && script.submit.result.trustlineAlreadyExists)
    ensures r.state == st || r.state == RefreshAccount(st, script.refreshLoad).state
    ensures forall i :: 1 <= i < |r.trace| ==> r.trace[i].LoadAccount?
  {
    if !serverAvailable then Effect(st, [FailureToast(ErrorObject(NO_SERVER))], [])
    else
      match script.submit
      case Submitted(result) =>
        if result.successful then ReportAndRefresh(st, signed, SuccessToast(ENABLED), script.refreshLoad)
        else if result.trustlineAlreadyExists then ReportAndRefresh(st, signed, InfoToast(ALREADY_EXISTS), script.refreshLoad)
        else Effect(st, [FailureToast(ErrorObject(script.messageForUndefined))], [SubmitTransaction(signed)])
      case SubmitThrew(_, message) =>
        Effect(st, [FailureToast(ErrorObject(message))], [SubmitTransaction(signed)])
  }

  /** A failed submission's toast does not depend on the message
      `getStellarErrorMessage(result)` computes for it: two results that
      differ only there give the same outcome. */
  lemma FailedResultMessageDiscarded(st: ProviderState, signed: SignedTx, script: Script, m1: string, m2: string)
    requires script.submit.Submitted? && !script.submit.result.successful && !script.submit.result.trustlineAlreadyExists
    ensures SubmitStage(st, true, signed, script.(submit := Submitted(script.submit.result.(errorMessage := m1))))
         == SubmitStage(st, true, signed, script.(submit := Submitted(script.submit.result.(errorMessage := m2))))
  {
  }

  /** `enableUsdc`. `isEnabling` is the flag before the call. */
  function EnableUsdc(session: Session, st: ProviderState, serverAvailable: bool, isEnabling: bool, script: Script): (r: Run)
    ensures !LoggedIn(session, st) ==> r == Run(st, isEnabling, None, [ErrorToast(NOT_LOGGED_IN)], [])
    ensures r.dialog.Some? ==> r == Run(st, isEnabling, r.dialog, [], [])
    ensures r.dialog.Some? <==> LoggedIn(session, st) && InsufficientReserve(st.account).Some?
    ensures LoggedIn(session, st) && r.dialog.None? ==> !r.isEnabling && |r.notices| >= 1
    ensures r.provider.publicKey == st.publicKey
    ensures LoggedIn(session, st) && InsufficientReserve(st.account).None? && script.load.LoadFailed? ==>
      r == Run(st, false, None, [FailureToast(EnableUsdcTrustline(st, script.load).result.error)],
               [LoadAccount(st.publicKey.value)])
    ensures LoggedIn(session, st) && InsufficientReserve(st.account).None? && script.load.LoadOk? ==>
      |r.trace| >= 2 && r.trace[0] == LoadAccount(st.publicKey.value)
      && r.trace[1] == SignRawHash(SignRequest(st.publicKey.value, "stellar",
                                              PrefixedHashHex(TrustlineTransaction(script.load.account))))
    ensures (LoggedIn(session, st) && InsufficientReserve(st.account).None? && script.load.LoadOk?
             && script.sign.SignThrew? && !LooksLikeAuthError(script.sign.error)) ==>
      r.provider == st && r.notices == [FailureToast(script.sign.error)] && |r.trace| == 2
    ensures ReachesSubmission(session, st, script) ==>
      var tail := SubmitStage(st, serverAvailable,
                              AttachSignature(TrustlineTransaction(script.load.account), st.publicKey.value,
                                              script.sign.signature), script);
      r.provider == tail.state && r.notices == tail.notices && r.trace[2..] == tail.trace
  {
    if !LoggedIn(session, st) then Run(st, isEnabling, None, [ErrorToast(NOT_LOGGED_IN)], [])
    else
      match InsufficientReserve(st.account)
      case Some(info) => Run(st, isEnabling, Some(info), [], [])
      case None =>
        var key := st.publicKey.value;
        var built := EnableUsdcTrustline(st, script.load);
        match built.result
        case Threw(e) => Run(st, false, None, [FailureToast(e)], built.trace)
        case Returned(tx) =>
          var request := SignRequest(key, "stellar", PrefixedHashHex(tx));
          match script.sign
          case SignThrew(e) =>
            if LooksLikeAuthError(e) then
              var text := if script.refreshUserSucceeds then AUTH_EXPIRED_RETRY else AUTH_EXPIRED_RELOGIN;
              Run(st, false, None, [ErrorToast(text)], built.trace + [SignRawHash(request), RefreshUser])
            else Run(st, false, None, [FailureToast(e)], built.trace + [SignRawHash(request)])
          case SignedHex(signature) =>
            var tail := SubmitStage(st, serverAvailable, AttachSignature(tx, key, signature), script);
            Run(tail.state, false, None, tail.notices, built.trace + [SignRawHash(request)] + tail.trace)
  }

  /** The run passes both checks and the wallet signs the built transaction. */
  predicate ReachesSubmission(session: Session, st: ProviderState, script: Script) {
    LoggedIn(session, st) && InsufficientReserve(st.account).None? && script.load.LoadOk? && script.sign.SignedHex?
  }

  /** The only transaction ever submitted is the change-trust transaction
      built on the fresh load, signed once by the connected key, and it is
      submitted only after the wallet signed it. */
  lemma SubmitsOnlySignedTrustline(session: Session, st: ProviderState, serverAvailable: bool, isEnabling: bool, script: Script)
    ensures var r := EnableUsdc(session, st, serverAvailable, isEnabling, script);
      forall i :: 0 <= i < |r.trace| && r.trace[i].SubmitTransaction? ==>
        ReachesSubmission(session, st, script)
        && r.trace[i].signed == AttachSignature(TrustlineTransaction(script.load.account), st.publicKey.value,
                                                script.sign.signature)
        && r.trace[i].signed.tx == TrustlineTransaction(script.load.account)
        && SignedOnceBy(r.trace[i].signed, st.publicKey.value)
  {
    var r := EnableUsdc(session, st, serverAvailable, isEnabling, script);
    if ReachesSubmission(session, st, script) {
      var key := st.publicKey.value;
      var built := EnableUsdcTrustline(st, script.load);
      var tx := TrustlineTransaction(script.load.account);
      var signed := AttachSignature(tx, key, script.sign.signature);
      var tail := SubmitStage(st, serverAvailable, signed, script);
      var request := SignRequest(key, "stellar", PrefixedHashHex(tx));
      assert r.trace == built.trace + [SignRawHash(request)] + tail.trace;
      assert forall i :: 0 <= i < |r.trace| && r.trace[i].SubmitTransaction? ==> r.trace[i] == SubmitTransaction(signed) by {
        forall i | 0 <= i < |r.trace| && r.trace[i].SubmitTransaction? ensures r.trace[i] == SubmitTransaction(signed) {
          assert i >= 2;
          assert r.trace[i] == tail.trace[i - 2];
        }
      }
    } else {
      assert NoSubmit(r.trace);
    }
  }

  /** A successful submission, or one that fails because the trustline
      already exists, is announced by its own toast and followed by exactly
      the calls and state change of `refreshAccount`. */
  lemma SuccessRefreshes(session: Session, st: ProviderState, serverAvailable: bool, isEnabling: bool, script: Script)
    requires ReachesSubmission(session, st, script) && serverAvailable && script.submit.Submitted?
    requires script.submit.result.successful || script.submit.result.trustlineAlreadyExists
    ensures var r := EnableUsdc(session, st, serverAvailable, isEnabling, script);
      var refreshed := RefreshAccount(st, script.refreshLoad);
      var tx := TrustlineTransaction(script.load.account);
      var key := st.publicKey.value;
      r.provider == refreshed.state && !r.isEnabling && r.dialog.None?
      && r.notices == [if script.submit.result.successful then SuccessToast(ENABLED) else InfoToast(ALREADY_EXISTS)]
                      + refreshed.notices
      && r.trace == [LoadAccount(key), SignRawHash(SignRequest(key, "stellar", PrefixedHashHex(tx))),
                     SubmitTransaction(AttachSignature(tx, key, script.sign.signature))] + refreshed.trace
  {
  }

  /** An expired-session signing error stops the flow: the user state is
      refreshed, one toast says so, and nothing is submitted. */
  lemma AuthErrorNeverSubmits(session: Session, st: ProviderState, serverAvailable: bool, isEnabling: bool, script: Script)
    requires LoggedIn(session, st) && InsufficientReserve(st.account).None? && script.load.LoadOk?
    requires script.sign.SignThrew? && LooksLikeAuthError(script.sign.error)
    ensures var r := EnableUsdc(session, st, serverAvailable, isEnabling, script);
      NoSubmit(r.trace) && r.trace[|r.trace| - 1] == RefreshUser && !r.isEnabling && r.provider == st
      && r.notices == [ErrorToast(if script.refreshUserSucceeds then AUTH_EXPIRED_RETRY else AUTH_EXPIRED_RELOGIN)]
  {
  }

  /** The first toast reports success exactly when a signed submission
      succeeded. */
  lemma SuccessToastIffSubmitted(session: Session, st: ProviderState, serverAvailable: bool, isEnabling: bool, script: Script)
    ensures var r := EnableUsdc(session, st, serverAvailable, isEnabling, script);
      (|r.notices| > 0 && r.notices[0].SuccessToast?) <==>
        ReachesSubmission(session, st, script) && serverAvailable && script.submit.Submitted? && script.submit.result.successful
  {
  }

  /** The hook changes the provider's state only through `refreshAccount`
      after a successful or already-existing trustline. */
  lemma ProviderOnlyRefreshed(session: Session, st: ProviderState, serverAvailable: bool, isEnabling: bool, script: Script)
    ensures var r := EnableUsdc(session, st, serverAvailable, isEnabling, script);
      r.provider == st || r.provider == RefreshAccount(st, script.refreshLoad).state
  {
  }
}
