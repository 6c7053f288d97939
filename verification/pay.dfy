/** `StellarPayNow` of `src/lib/stellar/pay.ts`: building a one-payment
    transaction with a text memo on a freshly loaded source account. */
module StellarPay {
  import opened Wrappers
  import opened Strings
  import opened Js
  import opened AssetConfig
  import opened Ledger
  import opened Calls

  /** The token to pay in: its registry key and its issuer address. */
  datatype Token = Token(key: string, address: string)

  /** The order: destination, amount (a number) and optional memo text. */
  datatype Order = Order(address: Option<string>, payAmount: Option<JsNumber>, salt: Option<string>)

  datatype Built = Built(result: Outcome<Transaction>, trace: seq<Call>)

  /** The asset of the payment: native when the key is empty or `"XLM"`,
      otherwise a credit whose code is the key with its first `"_XLM"` removed. */
  function PaymentAsset(token: Token): (r: Asset)
    ensures r == NativeAsset <==> !Truthy(token.key) || token.key == "XLM"
    ensures r.CreditAsset? ==> r.code == ReplaceFirst(token.key, "_XLM", "") && r.issuer == token.address
  {
    if !Truthy(token.key) || token.key == "XLM" then NativeAsset
    else CreditAsset(ReplaceFirst(token.key, "_XLM", ""), token.address)
  }

  /** The transaction built on the loaded source account with the fetched fee. */
  function PaymentTransaction(source: Account, fee: nat, token: Token, order: Order): Transaction {
    Transaction(
      source, NatToString(fee), PUBLIC_PASSPHRASE,
      [Payment(order.address.GetOr(""), PaymentAsset(token), order.payAmount.GetOr(NumberZero))],
      Some(TextMemo(order.salt.GetOr(""))),
      180)
  }

  /** `StellarPayNow`. `accountPresent` is the truthiness of the caller's
      cached account, `serverAvailable` whether a Horizon client exists;
      `load` and `fee` are Horizon's answers. */
  function StellarPayNow(
    accountPresent: bool, publicKey: string, token: Token, order: Order,
    serverAvailable: bool, load: LoadOutcome, fee: FeeOutcome): (r: Built)
    ensures !accountPresent || !Truthy(publicKey) ==> r == Built(Threw(ErrorObject("Account not found")), [])
    ensures accountPresent && Truthy(publicKey) && !serverAvailable ==>
      r == Built(Threw(ErrorObject("Source account not found")), [])
    ensures accountPresent && Truthy(publicKey) && serverAvailable ==>
      (load.LoadFailed? ==> r == Built(Threw(load.error.thrown), [LoadAccount(publicKey)]))
      && (load.LoadOk? ==> r.trace == [LoadAccount(publicKey), FetchBaseFee])
      && (load.LoadOk? && fee.FeeThrew? ==> r.result == Threw(fee.error))
    ensures r.result.Returned? <==> accountPresent && Truthy(publicKey) && serverAvailable && load.LoadOk? && fee.FeeOk?
    ensures r.result.Returned? ==> r.result.value == PaymentTransaction(load.account, fee.fee, token, order)
  {
    if !(accountPresent && Truthy(publicKey)) then Built(Threw(ErrorObject("Account not found")), [])
    else if !serverAvailable then Built(Threw(ErrorObject("Source account not found")), [])
    else
      match load
      case LoadFailed(e) => Built(Threw(e.thrown), [LoadAccount(publicKey)])
      case LoadOk(source) =>
        var trace := [LoadAccount(publicKey), FetchBaseFee];
        match fee
        case FeeThrew(e) => Built(Threw(e), trace)
        case FeeOk(f) => Built(Returned(PaymentTransaction(source, f, token, order)), trace)
  }

  /** A built payment has exactly one operation, a payment to the order's
      address; it always carries a text memo (empty when there is no salt),
      is built on the freshly loaded account and times out after 180 s, and
      its fee text denotes the fetched base fee. */
  lemma PaymentShape(
    accountPresent: bool, publicKey: string, token: Token, order: Order,
    serverAvailable: bool, load: LoadOutcome, fee: FeeOutcome)
    requires StellarPayNow(accountPresent, publicKey, token, order, serverAvailable, load, fee).result.Returned?
    ensures var tx := StellarPayNow(accountPresent, publicKey, token, order, serverAvailable, load, fee).result.value;
      |tx.operations| == 1 && tx.operations[0].Payment?
      && tx.operations[0].destination == order.address.GetOr("")
      && tx.memo.Some? && tx.memo.value.text == order.salt.GetOr("")
      && tx.source == load.account && tx.timeoutSeconds == 180
      && tx.networkPassphrase == PUBLIC_PASSPHRASE
      && AllDigits(tx.fee) && DigitsValue(tx.fee) == fee.fee
  {
    NatToStringValue(fee.fee);
  }

  /** `"_XLM"` cannot start inside `code` when `code` has no occurrence of it. */
  lemma NoEarlySuffix(code: string)
    requires !Contains(code, "_XLM")
    ensures forall j :: 0 <= j < |code| ==> !OccursAt(code + "_XLM", "_XLM", j)
  {
    var key := code + "_XLM";
    assert IndexOf(code, "_XLM").None?;
    forall j | 0 <= j < |code| ensures !OccursAt(key, "_XLM", j) {
      if j + 4 <= |code| {
        assert key[j..j + 4] == code[j..j + 4];
        assert !OccursAt(code, "_XLM", j);
      } else {
        var k := |code| - j;
        assert key[j..j + 4][k] == key[|code|] == '_';
        assert "_XLM"[k] != '_';
      }
    }
  }

  /** A key with the `_XLM` suffix names the credit asset without it. */
  lemma SuffixedKeyIsCredit(code: string, address: string)
    requires !Contains(code, "_XLM") && Truthy(code)
    ensures PaymentAsset(Token(code + "_XLM", address)) == CreditAsset(code, address)
  {
    var key := code + "_XLM";
    assert OccursAt(key, "_XLM", |code|);
    ContainsWitness(key, "_XLM", |code|);
    NoEarlySuffix(code);
    var i := IndexOf(key, "_XLM").value;
    assert i == |code|;
    assert key[..i] == code;
    assert |key| >= 5;
  }
}
