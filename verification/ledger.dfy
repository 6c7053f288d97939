/** The Horizon client and Stellar SDK surface the application uses, as plain
    records: account responses, the outcomes of the client's calls, and
    transactions as an abstract record of source, fee, operations, memo and
    timeout. XDR encoding and hashing are not modelled: a hash is named by the
    transaction it is the hash of. */
module Ledger {
  import opened Wrappers
  import opened Strings
  import opened Js
  import opened AssetConfig
  import opened Balances

  /** A Horizon account response (`balances` may be absent). */
  datatype Account = Account(accountId: string, sequence: nat, balances: Option<seq<StellarBalance>>)

  /** The cached account: `undefined` (not loaded yet), `null` (Horizon reported
      the account does not exist), or a loaded response. */
  datatype AccountState = NotLoaded | NotFound | Loaded(account: Account)

  /** A rejection from Horizon; `accountNotFound` is the verdict of the
      application's `isAccountNotFound` classifier on it. */
  datatype HorizonError = HorizonError(thrown: Thrown, accountNotFound: bool)

  /** The outcome of `server.loadAccount(key)`. */
  datatype LoadOutcome = LoadOk(account: Account) | LoadFailed(error: HorizonError)

  /** The outcome of `server.fetchBaseFee()`. */
  datatype FeeOutcome = FeeOk(fee: nat) | FeeThrew(error: Thrown)

  /** One record of `strictSendPaths(...).call()`. */
  datatype PathRecord = PathRecord(destinationAmount: string)

  /** The outcome of a path search; `records` is absent when the response has none. */
  datatype PathsOutcome = PathsOk(records: Option<seq<PathRecord>>) | PathsThrew(error: Thrown)

  /** A JavaScript number: zero, or `Number(text)` of a decimal string. Its
      `String(...)` rendering is kept symbolic. */
  datatype JsNumber = NumberZero | NumberOf(text: string)

  datatype Operation =
    | ChangeTrust(trustAsset: Asset, limit: string)
    | Payment(destination: string, payAsset: Asset, amount: JsNumber)

  datatype Memo = TextMemo(text: string)

  datatype Transaction = Transaction(
    source: Account,
    fee: string,
    networkPassphrase: string,
    operations: seq<Operation>,
    memo: Option<Memo>,
    timeoutSeconds: nat)

  /** The SDK's `BASE_FEE`, in stroops. */
  const BASE_FEE: string := "100"

  /** `Networks.PUBLIC`. */
  const PUBLIC_PASSPHRASE: string := "Public Global Stellar Network ; September 2015"

  /** `` `0x${transaction.hash().toString("hex")}` `` for the given transaction. */
  datatype HashHex = PrefixedHashHex(tx: Transaction)

  /** The base64 text of the bytes that a hex string denotes. */
  datatype Base64 = Base64OfHex(hex: string)

  datatype DecoratedSignature = DecoratedSignature(publicKey: string, signature: Base64)

  datatype SignedTx = SignedTx(tx: Transaction, signatures: seq<DecoratedSignature>)

  /** The `signRawHash` request of the embedded wallet. */
  datatype SignRequest = SignRequest(address: string, chainType: string, hash: HashHex)

  /** The outcome of `signRawHash`: a hex signature, or a rejection. */
  datatype SignOutcome = SignedHex(signature: string) | SignThrew(error: Thrown)

  /** A submission result; `trustlineAlreadyExists` and `errorMessage` are the
      verdicts of the application's `isTrustlineAlreadyExists` and
      `getStellarErrorMessage` on it. */
  datatype SubmitResult = SubmitResult(successful: bool, hash: string, trustlineAlreadyExists: bool, errorMessage: string)

  /** The outcome of `server.submitTransaction`; on a rejection,
      `responseDataMessage` is `getStellarErrorMessage(error?.response?.data)`. */
  datatype SubmitOutcome = Submitted(result: SubmitResult) | SubmitThrew(error: Thrown, responseDataMessage: string)

  /** `transaction.addSignature(publicKey, Buffer.from(signature.replace("0x", ""), "hex").toString("base64"))`. */
  function AttachSignature(tx: Transaction, publicKey: string, signatureHex: string): (r: SignedTx)
    ensures r.tx == tx && |r.signatures| == 1
    ensures r.signatures[0].publicKey == publicKey
    ensures !Contains(signatureHex, "0x") ==> r.signatures[0].signature == Base64OfHex(signatureHex)
    ensures StartsWith(signatureHex, "0x") ==> r.signatures[0].signature == Base64OfHex(signatureHex[2..])
  {
    StartsWithOccurs(signatureHex, "0x");
    SignedTx(tx, [DecoratedSignature(publicKey, Base64OfHex(ReplaceFirst(signatureHex, "0x", "")))])
  }

  /** A signed transaction carries exactly one signature, and it is for `key`. */
  predicate SignedOnceBy(s: SignedTx, key: string) {
    |s.signatures| == 1 && s.signatures[0].publicKey == key
  }
}
