/** `transfer` of `src/hooks/use-stellar-transfer.ts`: create a payment
    intent through the application's own route, pay it in USDC from the
    connected account, sign the hash with the embedded wallet and submit. */
module TransferFlow {
  import opened Wrappers
  import opened Strings
  import opened Js
  import opened AssetConfig
  import opened Ledger
  import opened Http
  import opened Calls
  import opened Auth
  import opened PaymentTypes
  import opened StellarProvider
  import opened StellarPay

  /** The values `setStep` receives. */
  datatype Step = CreatePaymentStep | SubmitTransactionStep | SuccessStep

  datatype Receipt = Receipt(hash: string, payment: Payment)

  /** The answers of the calls the hook makes. */
  datatype Script = Script(
    response: FetchOutcome<PaymentResult>,
    load: LoadOutcome,
    fee: FeeOutcome,
    sign: SignOutcome,
    refresh: Outcome<()>,
    submit: SubmitOutcome)

  /** What `transfer` settles to, the steps it set, and the calls it made. */
  datatype Run = Run(result: Outcome<Receipt>, steps: seq<Step>, trace: seq<Call>)

  const TRANSACTION_FAILED: string := "Transaction failed"

  /** The POST to the create-payment route, carrying the argument verbatim
      (`JSON.stringify(payload)`, whatever its shape). */
  function CreatePaymentRequest(payload: RequestBody): Request {
    Request("POST", "/api/create-payment", [JSON_CONTENT_TYPE], PaymentJson(payload))
  }

  /** `payment?.metadata?.receivingAddress ?? ""`. */
  function ReceivingAddress(payment: Option<Payment>): string {
    if payment.Some? && payment.value.metadata.Some? && payment.value.metadata.value.receivingAddress.Some?
    then payment.value.metadata.value.receivingAddress.value
    else ""
  }

  /** `Number(payment?.destination.amountUnits ?? 0)`. */
  function PayAmount(payment: Option<Payment>): JsNumber {
    if payment.Some? && payment.value.destination.amountUnits.Some?
    then NumberOf(payment.value.destination.amountUnits.value)
    else NumberZero
  }

  /** The order paid: the intent's receiving address and amount, no memo text. */
  function OrderOf(payment: Option<Payment>): Order {
    Order(Some(ReceivingAddress(payment)), Some(PayAmount(payment)), None)
  }

  /** The token paid in: the registry's USDC entry. */
  function TransferToken(): (r: Token)
    ensures r == Token("USDC", USDC_ISSUER)
  {
    AssetConfig.UpperOfKnownCodes();
    var token := GetAssetByCode("USDC");
    assert token == Some(USDC_ASSET);
    Token(token.value.code, token.value.issuer.GetOr(""))
  }

  /** What the inner `try` for an expired session throws (it never completes
      normally): the retry message once `refreshUser` resolves, or the
      rejection of `refreshUser`. */
  function RefreshThenRetry(refresh: Outcome<()>): Thrown {
    match refresh
    case Returned(_) => ErrorObject(AUTH_EXPIRED_RETRY)
    case Threw(e) => e
  }

  /** The bare `catch { ... }` around it: the caught value is not bound, and
      the re-login message is thrown in its place. */
  function BareCatch(caught: Thrown): Thrown {
    ErrorObject(AUTH_EXPIRED_RELOGIN)
  }

  /** What a signing error becomes: for an expired session, whatever the
      inner `try` throws passes through the bare `catch`; other errors are
      rethrown unchanged. */
  function SignError(e: Thrown, refresh: Outcome<()>): (r: Thrown)
    ensures LooksLikeAuthError(e) ==> r == ErrorObject(AUTH_EXPIRED_RELOGIN)
    ensures !LooksLikeAuthError(e) ==> r == e
  {
    if LooksLikeAuthError(e) then BareCatch(RefreshThenRetry(refresh)) else e
  }

  /** The retry message is thrown inside the `try` whenever `refreshUser`
      resolves, and the `catch` replaces it: no caller ever sees it. */
  lemma RetryMessageErased(e: Thrown, refresh: Outcome<()>)
    requires LooksLikeAuthError(e)
    ensures refresh.Returned? ==> RefreshThenRetry(refresh) == ErrorObject(AUTH_EXPIRED_RETRY)
    ensures SignError(e, refresh) != ErrorObject(AUTH_EXPIRED_RETRY)
    ensures SignError(e, refresh) == BareCatch(RefreshThenRetry(refresh))
  {
    assert AUTH_EXPIRED_RELOGIN[31] != AUTH_EXPIRED_RETRY[31];
  }

  /** From the signature onwards: attach it and submit; a receipt only for a
      successful submission of an intent the route returned. */
  function SignAndSubmit(key: string, tx: Transaction, payment: Option<Payment>, sign: SignOutcome,
                         refresh: Outcome<()>, submit: SubmitOutcome): (r: Run)
    ensures |r.trace| >= 1 && r.trace[0] == SignRawHash(SignRequest(key, "stellar", PrefixedHashHex(tx)))
    ensures r.steps == (if r.result.Returned? then [SuccessStep] else [])
    ensures sign.SignThrew? ==> r.result == Threw(SignError(sign.error, refresh))
    ensures sign.SignedHex? ==> r.trace == r.trace[..1] + [SubmitTransaction(AttachSignature(tx, key, sign.signature))]
    ensures sign.SignedHex? && submit.SubmitThrew? ==> r.result == Threw(submit.error)
    ensures sign.SignedHex? && submit.Submitted? ==>
      (r.result.Returned? <==> submit.result.successful && payment.Some?)
      && (r.result.Returned? ==> r.result.value == Receipt(submit.result.hash, payment.value))
      && (!r.result.Returned? ==> r.result == Threw(ErrorObject(TRANSACTION_FAILED)))
  {
    var signRequest := SignRawHash(SignRequest(key, "stellar", PrefixedHashHex(tx)));
    match sign
    case SignThrew(e) =>
      var calls := if LooksLikeAuthError(e) then [signRequest, RefreshUser] else [signRequest];
      Run(Threw(SignError(e, refresh)), [], calls)
    case SignedHex(signature) =>
      var signed := AttachSignature(tx, key, signature);
      var calls := [signRequest, SubmitTransaction(signed)];
      match submit
      case SubmitThrew(e, _) => Run(Threw(e), [], calls)
      case Submitted(result) =>
        if result.successful && payment.Some? then Run(Returned(Receipt(result.hash, payment.value)), [SuccessStep], calls)
        else Run(Threw(ErrorObject(TRANSACTION_FAILED)), [], calls)
  }

  /** Everything after the create-payment request, which does not depend on
      the body sent: read the intent, build the payment, sign and submit. The
      steps and calls are those after `CreatePaymentStep` and the request. */
  function AfterCreate(key: string, script: Script): (r: Run)
    ensures r.steps <= [SubmitTransactionStep, SuccessStep]
    ensures script.response.FetchThrew? ==> r == Run(Threw(script.response.error), [], [])
    ensures script.response.Responded? && script.response.json.JsonThrew? ==>
      r == Run(Threw(script.response.json.error), [], [])
  {
    match script.response
    case FetchThrew(e) => Run(Threw(e), [], [])
    case Responded(_, _, json) =>
      // the response's status is not consulted
      match json
      case JsonThrew(e) => Run(Threw(e), [], [])
      case JsonValue(intent) => AfterIntent(key, intent, script.load, script.fee, script.sign, script.refresh, script.submit)
  }

  /** Paying the intent the route returned. */
  function AfterIntent(key: string, intent: PaymentResult, load: LoadOutcome, fee: FeeOutcome,
                       sign: SignOutcome, refresh: Outcome<()>, submit: SubmitOutcome): (r: Run)
    ensures r.steps <= [SubmitTransactionStep, SuccessStep]
    ensures !intent.success ==> r == Run(Threw(ErrorObject(TRANSACTION_FAILED)), [], [])
    ensures intent.success ==> |r.steps| >= 1 && r.steps[0] == SubmitTransactionStep
    ensures intent.success && Truthy(key) && load.LoadFailed? ==> r.result == Threw(load.error.thrown)
    ensures intent.success && Truthy(key) && load.LoadOk? && fee.FeeThrew? ==> r.result == Threw(fee.error)
    ensures intent.success && Truthy(key) && load.LoadOk? && fee.FeeOk? ==>
      var tx := PaymentTransaction(load.account, fee.fee, TransferToken(), OrderOf(intent.payment));
      && (sign.SignThrew? ==> r.result == Threw(SignError(sign.error, refresh)) && NoSubmit(r.trace))
      && (sign.SignedHex? && submit.SubmitThrew? ==> r.result == Threw(submit.error))
      && (sign.SignedHex? && submit.Submitted? ==>
            (r.result.Returned? <==> submit.result.successful && intent.payment.Some?)
            && (r.result.Returned? ==> r.result.value == Receipt(submit.result.hash, intent.payment.value))
            && (!r.result.Returned? ==> r.result == Threw(ErrorObject(TRANSACTION_FAILED))))
      && (sign.SignedHex? ==> SubmitTransaction(AttachSignature(tx, key, sign.signature)) in r.trace)
  {
    if !intent.success then Run(Threw(ErrorObject(TRANSACTION_FAILED)), [], [])
    else
      var built := StellarPayNow(true, key, TransferToken(), OrderOf(intent.payment), true, load, fee);
      match built.result
      case Threw(e) => Run(Threw(e), [SubmitTransactionStep], built.trace)
      case Returned(tx) =>
        var tail := SignAndSubmit(key, tx, intent.payment, sign, refresh, submit);
        Run(tail.result, [SubmitTransactionStep] + tail.steps, built.trace + tail.trace)
  }

  /** `transfer(payload)`. The caller's `account`, `publicKey` and `server`
      come from the provider state and `serverAvailable`. */
  function Transfer(session: Session, st: ProviderState, serverAvailable: bool, payload: RequestBody, script: Script): (r: Run)
    ensures !(session.ready && session.authenticated && IsConnected(st)) ==>
      r == Run(Threw(ErrorObject(NOT_LOGGED_IN)), [], [])
    ensures session.ready && session.authenticated && IsConnected(st) && !(st.account.Loaded? && serverAvailable) ==>
      r == Run(Threw(ErrorObject(TRANSACTION_FAILED)), [], [])
    ensures session.ready && session.authenticated && IsConnected(st) && st.account.Loaded? && serverAvailable ==>
      |r.steps| >= 1 && r.steps[0] == CreatePaymentStep && |r.trace| >= 1 && r.trace[0] == Fetch(CreatePaymentRequest(payload))
  {
    if !(session.ready && session.authenticated && IsConnected(st)) then Run(Threw(ErrorObject(NOT_LOGGED_IN)), [], [])
    else if !(st.account.Loaded? && serverAvailable) then Run(Threw(ErrorObject(TRANSACTION_FAILED)), [], [])
    else
      var rest := AfterCreate(st.publicKey.value, script);
      Run(rest.result, [CreatePaymentStep] + rest.steps, [Fetch(CreatePaymentRequest(payload))] + rest.trace)
  }

  /** The run gets as far as asking the wallet for a signature. */
  predicate SignReached(session: Session, st: ProviderState, serverAvailable: bool, script: Script) {
    session.ready && session.authenticated && IsConnected(st) && st.account.Loaded? && serverAvailable
    && script.response.Responded? && script.response.json.JsonValue? && script.response.json.value.success
    && script.load.LoadOk? && script.fee.FeeOk?
  }

  /** The steps set are always a prefix of create-payment, submit-transaction,
      success, and reach success exactly when a receipt is returned. */
  lemma StepsArePrefix(session: Session, st: ProviderState, serverAvailable: bool, payload: RequestBody, script: Script)
    ensures var r := Transfer(session, st, serverAvailable, payload, script);
      r.steps <= [CreatePaymentStep, SubmitTransactionStep, SuccessStep]
      && (SuccessStep in r.steps <==> r.result.Returned?)
  {
  }

  /** The token paid in resolves to the USDC credit asset. */
  lemma TransferAssetIsUsdc()
    ensures PaymentAsset(TransferToken()) == CreditAsset("USDC", USDC_ISSUER)
  {
    assert ReplaceFirst("USDC", "_XLM", "") == "USDC" by {
      assert !OccursAt("USDC", "_XLM", 0) by {
        assert "USDC"[0..4][0] != "_XLM"[0];
      }
      assert IndexOf("USDC", "_XLM").None?;
    }
  }

  /** The part after the request, when it ends in a receipt. */
  lemma AfterCreateReceipt(key: string, script: Script)
    requires Truthy(key) && AfterCreate(key, script).result.Returned?
    ensures script.response.Responded? && script.response.json.JsonValue?
    ensures var intent := script.response.json.value;
      intent.success && intent.payment.Some?
      && script.load.LoadOk? && script.fee.FeeOk? && script.sign.SignedHex?
      && script.submit.Submitted? && script.submit.result.successful
      && AfterCreate(key, script).result.value == Receipt(script.submit.result.hash, intent.payment.value)
    ensures var intent := script.response.json.value;
      var tx := PaymentTransaction(script.load.account, script.fee.fee, TransferToken(), OrderOf(intent.payment));
      AfterCreate(key, script).trace
        == [LoadAccount(key), FetchBaseFee, SignRawHash(SignRequest(key, "stellar", PrefixedHashHex(tx))),
            SubmitTransaction(AttachSignature(tx, key, script.sign.signature))]
  {
    var intent := script.response.json.value;
    var built := StellarPayNow(true, key, TransferToken(), OrderOf(intent.payment), true, script.load, script.fee);
    assert built.result.Returned?;
    var tail := SignAndSubmit(key, built.result.value, intent.payment, script.sign, script.refresh, script.submit);
    assert AfterCreate(key, script).trace == built.trace + tail.trace;
  }

  /** A receipt means the route created the intent, the transaction paid the
      intent's receiving address the intent's amount in USDC from the freshly
      loaded account with an empty text memo, the connected key signed it
      once, and the receipt's hash is the submission's. */
  lemma ReceiptMeansIntentPaid(session: Session, st: ProviderState, serverAvailable: bool, payload: RequestBody, script: Script)
    requires Transfer(session, st, serverAvailable, payload, script).result.Returned?
    ensures script.response.Responded? && script.response.json.JsonValue?
    ensures var intent := script.response.json.value;
      intent.success && intent.payment.Some?
      && script.load.LoadOk? && script.fee.FeeOk? && script.sign.SignedHex?
      && script.submit.Submitted? && script.submit.result.successful
      && Transfer(session, st, serverAvailable, payload, script).result.value
         == Receipt(script.submit.result.hash, intent.payment.value)
  {
    AfterCreateReceipt(st.publicKey.value, script);
  }

  /** The calls behind a receipt: the route, the account load, the fee, the
      signature of the payment transaction and its submission, in that order. */
  lemma ReceiptTrace(session: Session, st: ProviderState, serverAvailable: bool, payload: RequestBody, script: Script)
    requires Transfer(session, st, serverAvailable, payload, script).result.Returned?
    ensures script.response.Responded? && script.response.json.JsonValue? && script.load.LoadOk?
      && script.fee.FeeOk? && script.sign.SignedHex?
    ensures var intent := script.response.json.value;
      var r := Transfer(session, st, serverAvailable, payload, script);
      var tx := PaymentTransaction(script.load.account, script.fee.fee, TransferToken(), OrderOf(intent.payment));
      r.trace == [Fetch(CreatePaymentRequest(payload)), LoadAccount(st.publicKey.value), FetchBaseFee,
                  SignRawHash(SignRequest(st.publicKey.value, "stellar", PrefixedHashHex(tx))),
                  SubmitTransaction(AttachSignature(tx, st.publicKey.value, script.sign.signature))]
      && tx.operations == [Operation.Payment(ReceivingAddress(intent.payment), CreditAsset("USDC", USDC_ISSUER), PayAmount(intent.payment))]
      && tx.memo == Some(TextMemo(""))
  {
    AfterCreateReceipt(st.publicKey.value, script);
    TransferAssetIsUsdc();
  }

  /** The converse of `ReceiptMeansIntentPaid`: once the wallet has signed
      and the transaction was submitted, the transfer returns a receipt
      exactly when the submission succeeded and the intent carries a
      payment, and throws "Transaction failed" otherwise. */
  lemma ReceiptIffSubmittedSuccessfully(session: Session, st: ProviderState, serverAvailable: bool,
                                        payload: RequestBody, script: Script)
    requires SignReached(session, st, serverAvailable, script)
    requires script.sign.SignedHex? && script.submit.Submitted?
    ensures var r := Transfer(session, st, serverAvailable, payload, script);
      (r.result.Returned? <==> script.submit.result.successful && script.response.json.value.payment.Some?)
      && (r.result.Returned? ==>
            r.result.value == Receipt(script.submit.result.hash, script.response.json.value.payment.value))
      && (!r.result.Returned? ==> r.result == Threw(ErrorObject(TRANSACTION_FAILED)))
  {
  }

  /** Errors on the way: a rejection of the route call or of its body, of the
      account load or of the fee request, and a rejected submission reach the
      caller unchanged; a signing error reaches it as `SignError` makes it. */
  lemma ErrorsPropagate(session: Session, st: ProviderState, serverAvailable: bool, payload: RequestBody, script: Script)
    requires session.ready && session.authenticated && IsConnected(st) && st.account.Loaded? && serverAvailable
    ensures var r := Transfer(session, st, serverAvailable, payload, script);
      && (script.response.FetchThrew? ==> r.result == Threw(script.response.error))
      && (script.response.Responded? && script.response.json.JsonThrew? ==> r.result == Threw(script.response.json.error))
      && (script.response.Responded? && script.response.json.JsonValue? && script.response.json.value.success ==>
            && (script.load.LoadFailed? ==> r.result == Threw(script.load.error.thrown))
            && (script.load.LoadOk? && script.fee.FeeThrew? ==> r.result == Threw(script.fee.error)))
      && (SignReached(session, st, serverAvailable, script) && script.sign.SignThrew? ==>
            r.result == Threw(SignError(script.sign.error, script.refresh)))
      && (SignReached(session, st, serverAvailable, script) && script.sign.SignedHex? && script.submit.SubmitThrew? ==>
            r.result == Threw(script.submit.error))
  {
  }

  /** The part after the request, for an expired session at signing. */
  lemma AfterCreateAuthError(key: string, script: Script)
    requires Truthy(key)
    requires script.sign.SignThrew? && LooksLikeAuthError(script.sign.error)
    ensures var r := AfterCreate(key, script);
      NoSubmit(r.trace) && r.result.Threw?
      && (r.result.error == ErrorObject(AUTH_EXPIRED_RELOGIN)
          || !(script.response.Responded? && script.response.json.JsonValue? && script.response.json.value.success
               && script.load.LoadOk? && script.fee.FeeOk?))
  {
    var r := AfterCreate(key, script);
    if script.response.Responded? && script.response.json.JsonValue? && script.response.json.value.success {
      var intent := script.response.json.value;
      var built := StellarPayNow(true, key, TransferToken(), OrderOf(intent.payment), true, script.load, script.fee);
      assert NoSubmit(built.trace);
      if built.result.Returned? {
        var tail := SignAndSubmit(key, built.result.value, intent.payment, script.sign, script.refresh, script.submit);
        assert tail.trace == [SignRawHash(SignRequest(key, "stellar", PrefixedHashHex(built.result.value))), RefreshUser];
        assert r.trace == built.trace + tail.trace;
      }
    }
  }

  /** An expired session at signing submits nothing and asks the caller to
      log in again. */
  lemma AuthErrorNeverSubmits(session: Session, st: ProviderState, serverAvailable: bool, payload: RequestBody, script: Script)
    requires script.sign.SignThrew? && LooksLikeAuthError(script.sign.error)
    ensures var r := Transfer(session, st, serverAvailable, payload, script);
      NoSubmit(r.trace) && r.result.Threw?
      && (r.result.error == ErrorObject(AUTH_EXPIRED_RELOGIN) || !SignReached(session, st, serverAvailable, script))
  {
    if session.ready && session.authenticated && IsConnected(st) && st.account.Loaded? && serverAvailable {
      AfterCreateAuthError(st.publicKey.value, script);
    }
  }

  /** The body handed to `transfer` only travels in the create-payment
      request: the outcome, the steps and every later call depend on the
      route's answer alone. */
  lemma PayloadOnlyInRequest(session: Session, st: ProviderState, serverAvailable: bool, a: RequestBody, b: RequestBody, script: Script)
    ensures var ra := Transfer(session, st, serverAvailable, a, script);
      var rb := Transfer(session, st, serverAvailable, b, script);
      ra.result == rb.result && ra.steps == rb.steps && |ra.trace| == |rb.trace|
      && (|ra.trace| > 0 ==>
            ra.trace[0] == Fetch(CreatePaymentRequest(a)) && rb.trace[0] == Fetch(CreatePaymentRequest(b))
            && ra.trace[1..] == rb.trace[1..])
  {
  }

  /** Whether `refreshUser` resolves or rejects, and with what, makes no
      difference to the transfer: the bare `catch` discards what the inner
      `try` threw. */
  lemma RefreshOutcomeIgnored(session: Session, st: ProviderState, serverAvailable: bool, payload: RequestBody,
                              script: Script, other: Outcome<()>)
    ensures Transfer(session, st, serverAvailable, payload, script)
         == Transfer(session, st, serverAvailable, payload, script.(refresh := other))
  {
    if session.ready && session.authenticated && IsConnected(st) && st.account.Loaded? && serverAvailable {
      var changed := script.(refresh := other);
      assert changed.response == script.response && changed.load == script.load && changed.fee == script.fee
        && changed.sign == script.sign && changed.submit == script.submit;
      if script.sign.SignThrew? {
        assert SignError(script.sign.error, script.refresh) == SignError(script.sign.error, other);
      }
    }
  }

  /** An intent the route did not create stops the transfer before any
      transaction is built, signed or submitted. */
  lemma FailedIntentStopsTransfer(session: Session, st: ProviderState, payload: RequestBody, script: Script)
    requires session.ready && session.authenticated && IsConnected(st) && st.account.Loaded?
    requires script.response.Responded? && script.response.json.JsonValue? && !script.response.json.value.success
    ensures Transfer(session, st, true, payload, script)
         == Run(Threw(ErrorObject(TRANSACTION_FAILED)), [CreatePaymentStep], [Fetch(CreatePaymentRequest(payload))])
  {
  }

  /** The route's HTTP status is never consulted: only the parsed body
      decides how the transfer goes on. */
  lemma StatusIgnored(session: Session, st: ProviderState, serverAvailable: bool, payload: RequestBody, script: Script, status: nat, statusText: string)
    requires script.response.Responded?
    ensures Transfer(session, st, serverAvailable, payload, script)
         == Transfer(session, st, serverAvailable, payload, script.(response := Responded(status, statusText, script.response.json)))
  {
    if session.ready && session.authenticated && IsConnected(st) && st.account.Loaded? && serverAvailable {
      var restated := script.(response := Responded(status, statusText, script.response.json));
      assert restated.response.json == script.response.json && restated.load == script.load && restated.fee == script.fee
        && restated.sign == script.sign && restated.submit == script.submit;
    }
  }
}
