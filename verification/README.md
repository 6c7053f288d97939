# rozo-privy core, modelled in Dafny

This project models the decision logic of the rozo-privy web wallet. The
wallet is a Next.js front end. It uses Privy embedded wallets to sign
Stellar transactions, Horizon to read and submit them, and two payment-intent
APIs (Rozo, with Daimo as a fallback). "ROZO Banana" is an image-editing page
behind a token paywall.

Each asynchronous call becomes an input: Horizon `loadAccount` / `fetchBaseFee` /
`submitTransaction` / `strictSendPaths`, Privy `signRawHash` / `refreshUser` /
`createWallet`, and `fetch`. Such an input is a scripted outcome, either the
value the call resolves to or what it throws. Each flow is then a pure function
from these outcomes to its result and the list of calls it made, in order. That
list is the `Calls.Call` trace, and it is what lets the model prove that a call
is never made (`Calls.NoSubmit`, `Calls.NoFetch`, ...).

Modules follow the source files:

- `AssetConfig`: `src/lib/stellar/config.ts`.
- `Balances`: `src/lib/stellar/utils.ts`.
- `BalanceViews`: `src/hooks/use-stellar-balances.ts`.
- `Activation`: `src/hooks/use-stellar-activation.ts`.
- `StellarProvider`: `src/providers/stellar.provider.tsx`.
- `StellarPay`: `src/lib/stellar/pay.ts`.
- `TrustlineFlow`: `src/hooks/use-stellar-trustline.ts`.
- `TransferFlow`: `src/hooks/use-stellar-transfer.ts`.
- `PaymentApi`: `src/lib/payment-api.ts`.
- `CreatePaymentRoute`: `src/app/api/create-payment/route.ts`.
- `StellarWallet`: `src/hooks/use-stellar-wallet.ts`.
- `TokenStore`: `src/app/banana/services/stellarService.ts`.
- `Gemini`: `src/app/banana/services/geminiService.ts`.
- `BananaPage`: `src/app/banana/page.tsx`.
- `TransformationOrder`: `src/app/banana/components/TransformationSelector.tsx`.
- `FormatAddress`: `lib/utils.ts`.
- `ReceiptMetadata`: `src/lib/metadata-utils.ts`.
- `Navigation`: `src/components/bottom-navbar.tsx`.

Shared helper modules:

- `Wrappers`: `Option`.
- `Strings`: JavaScript string operations on `seq<char>`, such as `split`, `indexOf`, `replace`, `trim`, `toUpperCase` and number rendering.
- `Js`: thrown values, `Outcome`, toasts.
- `Amounts`: ledger amounts as integer stroops, and Horizon's decimal text for them.
- `Ledger`: accounts, transactions, signing and submission outcomes.
- `Http`: requests and `fetch` outcomes.
- `PaymentTypes`: `PaymentPayload`, `PaymentResult`, payment intents.
- `Calls`: the call trace.

Amounts are integer stroops (10^7 per unit). `parseFloat` of a balance is
`Amounts.ParseStroops`. It reads Horizon's `D+` or `D+.D{1,7}` text, and
anything else is `None`, which stands for `NaN`. `Amounts.ParseFormatRoundTrip`
proves it inverts Horizon's rendering.

Behaviours of the code that the model keeps as written, each proved:

- **Failed trustline submission.** The toast after a failed trustline submission never shows the result's own message. The `Error` thrown with it at `use-stellar-trustline.ts:116` is caught at :118, and the message is rebuilt from `errors?.response?.data`, which that error does not have (`TrustlineFlow.FailedResultMessageDiscarded`).
- **Redundant auth test.** The second substring test of the expired-session check adds nothing (`Auth.AuthTestIsSingleSubstring`).
- **Expired session in `transfer`.** The "try again" error is thrown inside its own `try`. Whatever `refreshUser` does, the caller sees "Authentication expired. Please refresh the page and log in again." (`TransferFlow.RefreshOutcomeIgnored`).
- **HTTP status ignored.** `transfer` never looks at the create-payment route's HTTP status (`TransferFlow.StatusIgnored`).
- **Payment body.** The image page passes `transfer` a `{bridge, payload}` object and a second argument. The hook takes one argument and forwards the object unread as the create-payment body. It always pays in USDC whatever payment type was chosen, so the type changes only the amount written in that body (`BananaPage.PaymentTypeOnlyNamesAmount`).
- **Token reset.** After a generation the page clears the token and then stores `""`. The store still reports `isUsingStellar()`, but the token is falsy. So, when no `stellar` URL parameter is present, the service refuses the next request (`TokenStore.EmptyTokenCountsAsUsing`, `BananaPage.ResetToken`).
- **Generate button without an effect.** The generate button can be enabled with an image and no effect chosen, although `handleGenerate` then refuses (`BananaPage.EnabledWithoutEffect`).
- **Drag handlers.** `TransformationSelector` defines `handleDragStart` / `handleDragOver` / `handleDragEnd` but binds none of them to an element. `TransformationOrder` models the reorder they would perform.

A few facts about the code shape the model:

- **One transfer mode.** `transfer` has a single path. It always posts the payload to `/api/create-payment` before it builds any transaction (`use-stellar-transfer.ts:29-37`).
- **Intent failure message.** When the route's answer has `success` false, the hook throws "Transaction failed" (`use-stellar-transfer.ts:126-127`). It never reads the answer's `error` field.
- **No memo.** The order the hook hands to `StellarPayNow` has no `salt` (`use-stellar-transfer.ts:56-63`). So `pay.ts:33` always builds the empty text memo.
- **Slippage.** The comment at `stellar.provider.tsx:92` speaks of a 5% slippage tolerance. The code at :95 multiplies by 0.94, which is a 6% margin. That floating-point arithmetic is left out (see below).

## Model

| member | source | states |
|---|---|---|
| AssetConfig.GetAssetByCode | src/lib/stellar/config.ts:57-66 | any ASCII casing of "xlm" gives the native descriptor, any casing of "usdc" gives USDC, every other code gives undefined (each as an iff) |
| AssetConfig.GetAllAssets | src/lib/stellar/config.ts:71-73 | exactly the native descriptor then USDC |
| AssetConfig.RegistryWellFormed | src/lib/stellar/config.ts:36-52 | the native entry has no issuer and is the native ledger asset; every other entry has a non-empty issuer and is that credit asset; all have 7 decimals; codes are distinct |
| AssetConfig.RegistryRoundTrip | src/lib/stellar/config.ts:57-73 | looking up the code of any registered descriptor returns that descriptor |
| AssetConfig.LookupIgnoresCase | src/lib/stellar/config.ts:58 | two codes that differ only in letter case resolve to the same result |
| AssetConfig.UpperEqualIffSameIgnoringCase | src/lib/stellar/config.ts:58 | upper-casing two strings makes them equal exactly when they differ only in ASCII letter case |
| Strings.ToUpper | src/lib/stellar/config.ts:58 | `toUpperCase` keeps the length and upper-cases each ASCII letter in place |
| Amounts.ParseFormatRoundTrip | src/hooks/use-stellar-activation.ts:42 | reading Horizon's decimal text for any stroop amount gives back that amount |
| Balances.GetAssetConfigForBalance | src/lib/stellar/utils.ts:46-56 | native lines give the native descriptor, coded lines give the registry lookup of the code, other lines give undefined; any result is a registry entry |
| Balances.FormatBalance | src/lib/stellar/utils.ts:67-80 | the code is "XLM" for native lines, else the asset code or "Unknown"; isNative iff native; the balance text passes through unchanged; decimals are 7 |
| Balances.MapFormat | src/lib/stellar/utils.ts:65-80 | the map step keeps the length and formats each line at its own position |
| Strings.LexLeTotal | src/lib/stellar/utils.ts:85 | the code comparison orders any two codes one way or the other |
| Strings.LexLeTransitive | src/lib/stellar/utils.ts:85 | the code comparison is transitive |
| Balances.DisplayLeTotal | src/lib/stellar/utils.ts:81-86 | the comparator orders any two entries one way or the other |
| Balances.DisplayLeTransitive | src/lib/stellar/utils.ts:81-86 | the comparator is transitive |
| Balances.Insert | src/lib/stellar/utils.ts:81-86 | inserting into a sorted list gives a sorted list holding the old entries plus the new one |
| Balances.InsertStable | src/lib/stellar/utils.ts:81-86 | the inserted entry goes ahead of every entry of the same kind and code; entries of any other kind and code keep their order |
| Balances.SortForDisplay | src/lib/stellar/utils.ts:81-86 | the sort result is a permutation of its input, sorted under the comparator, and stable: entries of the same kind and code keep their input order |
| Balances.FormatStellarBalances | src/lib/stellar/utils.ts:61-88 | the display list has the input's length, is a permutation of the formatted lines, is sorted native first and then by code, and keeps lines of the same kind and code (two USDC lines of different issuers, say) in input order |
| Balances.FormatStellarBalancesContents | src/lib/stellar/utils.ts:64-80 | every input line appears formatted in the display list and every entry comes from an input line, so nothing is filtered out |
| Balances.NativeFirst | src/lib/stellar/utils.ts:81-86 | no non-native entry precedes a native one, and entries of the same kind are in code order |
| Balances.FindNative | src/lib/stellar/utils.ts:94-96 | the index of the first native line, or none when no line is native |
| Balances.GetNativeBalance | src/lib/stellar/utils.ts:93-98 | null iff no line is native; otherwise the balance text of the first native line |
| BalanceViews.FormattedBalances | src/hooks/use-stellar-balances.ts:12-15 | empty without balances, otherwise the display list of the balances |
| BalanceViews.AnyUsdcTrustline | src/hooks/use-stellar-balances.ts:19-23 | true iff some line has the USDC code and the configured issuer |
| BalanceViews.HasUsdcTrustline | src/hooks/use-stellar-balances.ts:17-24 | true iff the account has balances and one of them is a USDC line from the configured issuer |
| BalanceViews.FindUsdcCode | src/hooks/use-stellar-balances.ts:28-30 | the index of the first USDC-coded line, or none when there is none |
| BalanceViews.UsdcBalance | src/hooks/use-stellar-balances.ts:26-31 | 0 iff there are no balances; otherwise the text of the first USDC-coded line, or undefined when no line has that code |
| BalanceViews.NoBalancesViews | src/hooks/use-stellar-balances.ts:12-31 | without balances the list is empty, there is no trustline, and the USDC balance is 0 |
| BalanceViews.ForeignUsdcCountsOnlyForBalance | src/hooks/use-stellar-balances.ts:17-31 | a USDC-coded line from another issuer counts for the USDC balance but not for the trustline |
| BalanceViews.TrustlineImpliesBalance | src/hooks/use-stellar-balances.ts:17-31 | a trustline always yields a USDC balance line |
| Activation.NeedsActivation | src/hooks/use-stellar-activation.ts:10-48 | needs activation iff not loading, and a key is set or the account is loaded, and the account does not hold a non-zero native balance; false while loading; true for a key with a not-found account; false with no key and no loaded account |
| Activation.LoadingOnlyWhileFetching | src/hooks/use-stellar-activation.ts:10-18 | loading iff a key is bound and the account is still undefined; an account found missing or loaded is never loading |
| Activation.LoadedAccountActivation | src/hooks/use-stellar-activation.ts:33-47 | a loaded account with missing or empty balances, no native line, or a native line reading 0 needs activation; a positive native balance does not |
| StellarProvider.GetAccountInfo | src/providers/stellar.provider.tsx:59-79 | one load of the key; success caches the response, not-found caches null, any other error keeps the state and raises one toast with the error's message or the fallback; the key is untouched |
| StellarProvider.RefreshAccount | src/providers/stellar.provider.tsx:146-150 | without a truthy key nothing happens and no call is made; with one it is getAccountInfo of that key |
| StellarProvider.Disconnect | src/providers/stellar.provider.tsx:152-159 | afterwards the state is the provider's initial state: no key, and the account back to undefined |
| StellarProvider.SetPublicKey | src/providers/stellar.provider.tsx:170-174 | the key is stored, the cache kept, and isConnected holds iff the key is non-empty |
| StellarProvider.RefreshReplacesWholesale | src/providers/stellar.provider.tsx:59-78 | after a refresh the cache is the old one, null, or exactly the loaded response; the key never changes |
| StellarProvider.RefreshIdempotent | src/providers/stellar.provider.tsx:146-150 | refreshing twice with the same Horizon answer leaves the state a single refresh leaves |
| StellarProvider.RefreshAfterDisconnect | src/providers/stellar.provider.tsx:146-159 | after disconnect a refresh makes no call and changes nothing |
| StellarProvider.ConnectThenLoad | src/providers/stellar.provider.tsx:161-165 | setting a key and loading it caches exactly the loaded account, with one load and no toast |
| StellarProvider.EnableUsdcTrustline | src/providers/stellar.provider.tsx:104-144 | without a key it throws "No account connected" before any call; otherwise one fresh load; it returns iff the load succeeded, and the transaction has one change-trust for USDC with the maximum limit, base fee, public passphrase, no memo and timeout 30; not-found becomes the activation message and other errors are rethrown |
| StellarProvider.TrustlineLimitIsInt64Max | src/providers/stellar.provider.tsx:119 | the limit text denotes 2^63 - 1 stroops |
| StellarProvider.TrustlineIgnoresCache | src/providers/stellar.provider.tsx:109-111 | the transaction does not depend on the cached account |
| StellarProvider.ConvertXlmToUsdc | src/providers/stellar.provider.tsx:81-102 | one strict-send path search from XLM to USDC for the amount; it returns iff there is at least one record, and then the first; no records throws "No exchange rate found for XLM swap"; rejections pass through |
| StellarPay.PaymentAsset | src/lib/stellar/pay.ts:35-38 | native iff the key is empty or "XLM"; otherwise the credit asset whose code is the key with its first "_XLM" removed, issued by the token address |
| Strings.ReplaceFirst | src/lib/stellar/pay.ts:38 | `replace` with a string pattern changes nothing when the pattern is absent, and otherwise splices the replacement in at the first occurrence only |
| StellarPay.SuffixedKeyIsCredit | src/lib/stellar/pay.ts:38 | a key `code + "_XLM"` names the credit asset `code` |
| StellarPay.StellarPayNow | src/lib/stellar/pay.ts:10-69 | a falsy account or key throws "Account not found" with no call; no server throws "Source account not found"; a failed load is rethrown after one call; otherwise the calls are load then fee; it returns iff both succeed, and then the transaction built on the loaded account with the fetched fee |
| StellarPay.PaymentShape | src/lib/stellar/pay.ts:47-60 | a built payment has exactly one payment operation to the order address, a text memo equal to the salt or empty, the fresh account as source, the public passphrase, timeout 180, and fee text denoting the fetched fee |
| Ledger.AttachSignature | src/hooks/use-stellar-trustline.ts:69-72 | the transaction gets exactly one signature, for the key, and it is the base64 of the hex with a leading "0x" removed |
| Js.MessageOr | src/providers/stellar.provider.tsx:76 | `error.message \|\| fallback`: the message when the error has a non-empty one, else the fallback |
| Js.InstanceMessage | src/lib/payment-api.ts:95 | the message of an Error instance, else the fallback |
| TrustlineFlow.CheckedBalance | src/hooks/use-stellar-trustline.ts:35-38 | a missing native line counts as 0; otherwise it is the parsed native balance (NaN for unreadable text) |
| TrustlineFlow.InsufficientReserve | src/hooks/use-stellar-trustline.ts:33-45 | the dialog opens iff the cached account lists balances and the checked balance is a number below 1.5 XLM, and then it shows that balance and 1.5 XLM |
| TrustlineFlow.ReportAndRefresh | src/hooks/use-stellar-trustline.ts:99-111 | after the submission the notice comes first, then exactly what refreshAccount does |
| TrustlineFlow.SubmitStage | src/hooks/use-stellar-trustline.ts:93-126 | no server gives "Stellar server not available" with no call; otherwise the submission is the first call; a successful result toasts "USDC trustline enabled successfully!" and an existing trustline toasts "USDC trustline already exists on your account", each followed by exactly the calls, toasts and state of refreshAccount; any other failed result toasts the message for `undefined`, and a rejected submission toasts the message derived from its response data |
| TrustlineFlow.FailedResultMessageDiscarded | src/hooks/use-stellar-trustline.ts:113-123 | the message computed for a failed result has no effect on the outcome |
| TrustlineFlow.EnableUsdc | src/hooks/use-stellar-trustline.ts:26-132 | not logged in gives one toast and no call; the reserve dialog opens iff the reserve check fails, and then nothing else happens; a failed load gives one failure toast after the one load; otherwise the second call is the signing request for the connected key, "stellar" and the 0x-prefixed hash of the change-trust transaction; a non-auth signing error gives its failure toast after those two calls; after a signature the provider, toasts and remaining calls are those of the submission stage for the signed transaction; every exit past the dialog clears isEnabling and shows a toast; the key never changes |
| TrustlineFlow.SubmitsOnlySignedTrustline | src/hooks/use-stellar-trustline.ts:47-96 | anything submitted is the change-trust transaction built on the fresh load with the wallet's signature attached for the connected key (base64 of its hex without "0x"), signed once, and only after the guards passed and the wallet signed |
| TrustlineFlow.AuthErrorNeverSubmits | src/hooks/use-stellar-trustline.ts:73-89 | an expired-session signing error submits nothing, ends with refreshUser, clears isEnabling, leaves the provider unchanged and shows one toast chosen by the refresh outcome |
| TrustlineFlow.SuccessToastIffSubmitted | src/hooks/use-stellar-trustline.ts:99-100 | the first toast is a success iff the run reached submission and the submission succeeded |
| TrustlineFlow.SuccessRefreshes | src/hooks/use-stellar-trustline.ts:47-111 | a successful submission, or one failing on an existing trustline, shows its own toast and then exactly what refreshAccount does: calls load, sign, submit, then the refresh calls, and the provider ends as refreshAccount leaves it |
| TrustlineFlow.ProviderOnlyRefreshed | src/hooks/use-stellar-trustline.ts:99-111 | the provider state is either unchanged or what refreshAccount leaves |
| Auth.AuthTestIsSingleSubstring | src/hooks/use-stellar-trustline.ts:75-78 | the two-substring test is equivalent to the test for "authenticated" alone |
| TransferFlow.TransferToken | src/hooks/use-stellar-transfer.ts:43-56 | the token paid in is the registry's USDC code and issuer |
| TransferFlow.SignError | src/hooks/use-stellar-transfer.ts:88-103 | the nested try/catch: an expired-session error becomes the "refresh the page and log in again" error whatever `refreshUser` does; any other error is rethrown unchanged |
| TransferFlow.RetryMessageErased | src/hooks/use-stellar-transfer.ts:92-101 | when `refreshUser` resolves, the inner "try again" error is thrown, but the outer catch replaces it, so the caller never sees it |
| TransferFlow.SignAndSubmit | src/hooks/use-stellar-transfer.ts:72-122 | the first call is the signing request for the transaction's prefixed hash; a signing error throws as `SignError` makes it; a signature leads to exactly one submission, of the signed transaction; a rejected submission rethrows its error; a submission returns a receipt of its hash and the payment iff it was successful and the intent has a payment, else "Transaction failed"; step success is set iff a receipt is returned |
| TransferFlow.AfterCreate | src/hooks/use-stellar-transfer.ts:39-128 | a rejection of the route call or of its body is rethrown with no step and no call; after the answer, the steps set are a prefix of submit-transaction, success |
| TransferFlow.AfterIntent | src/hooks/use-stellar-transfer.ts:41-128 | an intent with success false throws "Transaction failed" with no step or call; otherwise submit-transaction is the first step; a failed load or fee is rethrown; a signing error throws as `SignError` makes it and nothing is submitted; a rejected submission rethrows; a submission gives a receipt iff successful with a payment; a signature means the signed payment transaction of the intent's order is submitted |
| TransferFlow.Transfer | src/hooks/use-stellar-transfer.ts:22-135 | not logged in throws the login message with no call; no account or server throws "Transaction failed" with no call; otherwise create-payment is the first step and the POST of the payload the first call (what follows is stated by the lemmas below) |
| TransferFlow.StepsArePrefix | src/hooks/use-stellar-transfer.ts:20-111 | the steps set within a call are a prefix of create-payment, submit-transaction, success, and success is reached iff a receipt is returned |
| TransferFlow.TransferAssetIsUsdc | src/hooks/use-stellar-transfer.ts:43-56 | the asset paid is the USDC credit asset of the configured issuer |
| TransferFlow.AfterCreateReceipt | src/hooks/use-stellar-transfer.ts:106-115 | a receipt after the route means the intent succeeded, load, fee, signing and submission all succeeded, and the calls were load, fee, sign, submit |
| TransferFlow.ReceiptMeansIntentPaid | src/hooks/use-stellar-transfer.ts:110-115 | a receipt means the intent succeeded with a payment, the load, fee, signing and submission all succeeded, and the receipt holds the submission hash and the intent's payment |
| TransferFlow.ReceiptIffSubmittedSuccessfully | src/hooks/use-stellar-transfer.ts:106-121 | once signed and submitted, a receipt is returned iff the submission was successful and the intent has a payment, and then it holds the hash and that payment; otherwise "Transaction failed" is thrown |
| TransferFlow.ErrorsPropagate | src/hooks/use-stellar-transfer.ts:32-121 | a rejection of the route call, of its body, of the account load, of the fee request or of the submission reaches the caller unchanged; a signing error reaches it as `SignError` makes it |
| TransferFlow.ReceiptTrace | src/hooks/use-stellar-transfer.ts:32-115 | a receipt's calls are exactly the create-payment POST, load, fee, the signing request for the key, and the submission; the transaction's one operation pays the intent's receiving address its amount in USDC, with an empty text memo |
| TransferFlow.AfterCreateAuthError | src/hooks/use-stellar-transfer.ts:88-102 | after the route, an expired-session signing error submits nothing and throws, and the error is the relogin message unless the route or Horizon failed before signing |
| TransferFlow.AuthErrorNeverSubmits | src/hooks/use-stellar-transfer.ts:88-102 | an expired-session signing error submits nothing and the transfer throws, with the relogin message whenever signing was reached |
| TransferFlow.PayloadOnlyInRequest | src/hooks/use-stellar-transfer.ts:32-38 | two payloads give the same result, steps and calls except the body of the first request |
| TransferFlow.RefreshOutcomeIgnored | src/hooks/use-stellar-transfer.ts:92-101 | any two outcomes of `refreshUser`, resolving or rejecting with any error, give the same result, steps and calls |
| TransferFlow.FailedIntentStopsTransfer | src/hooks/use-stellar-transfer.ts:126-128 | an intent with success false throws "Transaction failed" after the one POST, with nothing built, signed or submitted |
| TransferFlow.StatusIgnored | src/hooks/use-stellar-transfer.ts:40-42 | the route's HTTP status makes no difference; only the parsed body counts |
| PaymentApi.ValidateEnvironment | src/lib/payment-api.ts:47-67 | a configuration iff all four variables are non-empty; Rozo uses a bearer header, Daimo an Api-Key header |
| PaymentApi.StatusErrorNamesStatus | src/lib/payment-api.ts:83-88 | the status error message starts with the prefix and the status can be read back from its digits, followed by a space and the status text |
| PaymentApi.Settle | src/lib/payment-api.ts:74-97 | success iff the response is ok and its body parsed, and then the data; a non-ok status gives the status message; a rejection gives the Error's message or the fallback |
| PaymentApi.FetchFromApi | src/lib/payment-api.ts:74-97 | success iff the response is ok and its body parsed, and then the parsed data; a rejection with an Error gives its message, any other rejection "Unknown error occurred" |
| PaymentApi.GetRequest | src/lib/payment-api.ts:75-81 | a GET of the URL with the JSON content type followed by the API headers and no body |
| PaymentApi.GetPaymentData | src/lib/payment-api.ts:101-161 | an empty id gives "Payment ID is required" with no call; missing configuration gives the configuration message with no call; success iff one of the two APIs found the payment, and then a payment and a source are set |
| PaymentApi.LookupPrefersRozo | src/lib/payment-api.ts:115-147 | Rozo is asked first; a payment from Rozo is returned with source rozo and Daimo is not asked; otherwise Daimo is asked next and any success is Daimo's payment |
| PaymentApi.NotFoundReportsBoth | src/lib/payment-api.ts:149-153 | when neither API has the payment, the message is "Payment not found. Rozo API: ", then Rozo's error, then ", Daimo API: ", then Daimo's error |
| PaymentApi.CreateRequest | src/lib/payment-api.ts:176-183 | a POST to the Rozo URL + "/payment-api" with the Rozo headers and the payload as body |
| PaymentApi.CreatePayment | src/lib/payment-api.ts:163-201 | missing configuration fails with no call; otherwise one POST; success iff the response is ok with a parsed body, and then the payment; every failure carries an error; no source is set |
| CreatePaymentRoute.Post | src/app/api/create-payment/route.ts:4-33 | the status is 200, 400 or 500; 200 iff success; 500 iff the request body did not parse, with the Error's message or "Invalid request data"; otherwise the upstream result mapped to success with payment or failure with error |
| CreatePaymentRoute.RouteForwardsBody | src/app/api/create-payment/route.ts:6-14 | the parsed body is forwarded verbatim in one POST, and the answer is 200 iff the upstream answer was ok with a readable body |
| CreatePaymentRoute.MissingConfigIs400 | src/app/api/create-payment/route.ts:15-22 | without configuration the route answers 400 with the configuration message and makes no call |
| StellarWallet.FilterStellar | src/hooks/use-stellar-wallet.ts:17-22 | exactly the linked accounts that are Privy Stellar wallets are kept |
| StellarWallet.FilterDistributes | src/hooks/use-stellar-wallet.ts:17-22 | filtering two lists joined is joining their filtered lists, so the filter keeps the original order |
| StellarWallet.FirstWalletIsFirstMatch | src/hooks/use-stellar-wallet.ts:17-22 | the first wallet kept is the first qualifying linked account |
| StellarWallet.EmbeddedWallets | src/hooks/use-stellar-wallet.ts:15-24 | empty without a user, otherwise the filtered linked accounts |
| StellarWallet.AutoEffect | src/hooks/use-stellar-wallet.ts:56-76 | a wallet is created iff ready, authenticated, a user, no wallets and no creation running; the key is bound iff there is a wallet, and it is the first wallet's address |
| StellarWallet.RedirectEffect | src/hooks/use-stellar-wallet.ts:49-53 | a navigation to "/" iff ready and not authenticated, otherwise nothing |
| StellarWallet.HandleCreateWallet | src/hooks/use-stellar-wallet.ts:26-36 | creation is always tried first, the user is refreshed iff it succeeded, and isCreating ends false |
| StellarWallet.CreationOnlyWhileLoading | src/hooks/use-stellar-wallet.ts:42-64 | a wallet is created only while the hook reports loading |
| StellarWallet.NotLoadingMeansSettled | src/hooks/use-stellar-wallet.ts:42-46 | when not loading, Privy is ready, no creation runs, a signed-in user has arrived, any user has a Stellar wallet, and no wallet is created |
| StellarWallet.ReadyUserBindsFirstWallet | src/hooks/use-stellar-wallet.ts:42-66 | once loading is over for a user, the first wallet's address is bound |
| StellarWallet.BoundAddressIsEmbeddedStellar | src/hooks/use-stellar-wallet.ts:15-66 | a bound address always belongs to a Privy Stellar wallet among the linked accounts |
| TokenStore.GetStellarToken | src/app/banana/services/stellarService.ts:7-22 | no window gives null and nothing changes; a non-empty URL token is returned and stored; otherwise the stored value, possibly null, is returned |
| TokenStore.SetStellarToken | src/app/banana/services/stellarService.ts:24-28 | with a window the token is stored, other keys are kept; without one nothing changes |
| TokenStore.ClearStellarToken | src/app/banana/services/stellarService.ts:30-34 | with a window the token is removed, other keys are kept; without one nothing changes |
| TokenStore.SetThenGet | src/app/banana/services/stellarService.ts:7-28 | storing a token and reading it back without a URL token gives that token |
| TokenStore.ClearThenGet | src/app/banana/services/stellarService.ts:30-38 | after clearing, a read without a URL token gives null and isUsingStellar is false |
| TokenStore.UrlTokenPersists | src/app/banana/services/stellarService.ts:14-18 | after reading a URL token the session holds it, and a later read without the URL parameter still returns it |
| TokenStore.GetIdempotent | src/app/banana/services/stellarService.ts:7-22 | reading twice gives what reading once gives |
| TokenStore.EmptyTokenCountsAsUsing | src/app/banana/services/stellarService.ts:36-38 | clearing and then storing "" leaves isUsingStellar true with a falsy token |
| TokenStore.UsingStellarIff | src/app/banana/services/stellarService.ts:7-38 | a token is in use iff there is a window and a non-empty URL parameter or any stored value |
| Gemini.BuildContent | src/app/banana/services/geminiService.ts:12-49 | the text part first, then the image's data URL, then the PNG mask when given, then the secondary image when given; with a mask the text is the masked-area wrapper quoting the prompt |
| Gemini.ImageOf | src/app/banana/services/geminiService.ts:98-119 | an image iff the first choice's message has a first image entry of type image_url with a non-empty url, and then that url |
| Gemini.NoImageMessage | src/app/banana/services/geminiService.ts:121-138 | the safety message for finish reason "safety", the filter message for "content_filter", otherwise the default no-image message |
| Gemini.FriendlyMessage | src/app/banana/services/geminiService.ts:143-168 | text that is not a JSON error object is kept; a JSON error maps rate_limit_exceeded, code 500 or internal_server_error, and insufficient_quota to their messages, else to its own message |
| Gemini.Rethrown | src/app/banana/services/geminiService.ts:141-173 | an Error is rethrown with its friendly message; anything else becomes the unknown-error message |
| Gemini.EditImage | src/app/banana/services/geminiService.ts:4-175 | anything thrown is an Error; the session is what reading the token leaves; no token means no fetch; otherwise one POST; it returns iff the response is ok and carries an image, and then that image and the first choice's text |
| Gemini.CapitalisedPassesThrough | src/app/banana/services/geminiService.ts:145-147 | a message starting with a capital letter cannot parse as a JSON object and is kept |
| Gemini.OwnMessagesPassThrough | src/app/banana/services/geminiService.ts:141-169 | none of the service's own messages is rewritten by the catch |
| Gemini.MissingTokenNeverFetches | src/app/banana/services/geminiService.ts:62-68 | without a truthy token nothing is fetched and the token-required error reaches the caller |
| Gemini.RejectedTokenMessage | src/app/banana/services/geminiService.ts:83-88 | a 401 or 403 reaches the caller as the invalid-token error |
| Gemini.RequestCarriesTokenAndImage | src/app/banana/services/geminiService.ts:70-81 | the one request goes to the proxy endpoint with the token as x-api-token, the referer and title headers, and the image data URL in the content |
| Gemini.OnlyFirstImageCounts | src/app/banana/services/geminiService.ts:98-117 | images outside the first choice's first entry are never read |
| Gemini.SafetyStopMessage | src/app/banana/services/geminiService.ts:126-128 | a safety stop without an image reaches the caller as the safety message |
| Gemini.FailedStatusMessage | src/app/banana/services/geminiService.ts:83-91 | a non-OK status other than 401 and 403 reaches the caller as "API request failed: " with the status and its text |
| Gemini.NoImageReported | src/app/banana/services/geminiService.ts:121-138 | an OK answer without an image reaches the caller as the safety message for "safety", the filter message for "content_filter", and otherwise the default no-image message |
| Gemini.ProxyErrorTranslated | src/app/banana/services/geminiService.ts:147-164 | a JSON error text thrown inside the try is translated by its status or code |
| BananaPage.Ids | src/app/banana/page.tsx:129 | the ids, one per effect in order |
| BananaPage.ById | src/app/banana/page.tsx:74-79 | a found entry has the id and is in the catalogue; none iff no entry has it |
| BananaPage.Known | src/app/banana/page.tsx:78-80 | no more entries than saved ids, each a catalogue entry whose id was saved |
| BananaPage.KnownDistributes | src/app/banana/page.tsx:78-80 | the saved ids are resolved in saved order: resolving two runs of ids in turn is resolving their concatenation |
| BananaPage.KnownKeepsFound | src/app/banana/page.tsx:78-80 | every saved id that names a catalogue entry keeps that entry |
| BananaPage.Unsaved | src/app/banana/page.tsx:82-85 | only catalogue entries whose id was not saved, and every such entry is among them |
| BananaPage.UnsavedDistributes | src/app/banana/page.tsx:82-85 | the unsaved entries keep catalogue order: filtering two runs of the catalogue in turn is filtering their concatenation |
| BananaPage.RestoreOrder | src/app/banana/page.tsx:67-95 | anything but a saved list of ids (no window, nothing stored, a parse error) gives the catalogue itself; otherwise every entry is a catalogue entry, no unsaved catalogue entry is lost, and all entries whose id was saved come before all entries whose id was not |
| BananaPage.ByIdFindsEntry | src/app/banana/page.tsx:74-79 | with unique ids, looking up an entry's id finds that entry |
| BananaPage.KnownOfMembers | src/app/banana/page.tsx:78-80 | saved ids of catalogue entries resolve to those very entries in the saved order |
| BananaPage.UnsavedEmpty | src/app/banana/page.tsx:82-85 | when every catalogue id was saved nothing is appended |
| BananaPage.RestoreRoundTrip | src/app/banana/page.tsx:67-138 | for a catalogue with unique ids, saving any arrangement of it and restoring it gives that arrangement back |
| BananaPage.RestoreDropsUnknownAppendsNew | src/app/banana/page.tsx:73-87 | saved ids not in the catalogue are dropped and catalogue entries not saved are appended |
| BananaPage.PushHistory | src/app/banana/page.tsx:147-149 | the new image comes first, followed by the old history, and at most 20 entries are kept |
| BananaPage.SaveToHistory | src/app/banana/page.tsx:141-155 | nothing is written without a window or an image, or when the stored text is not a list; otherwise the stored list with the image pushed |
| BananaPage.PushAllKeepsNewest | src/app/banana/page.tsx:147-150 | after any number of saves the history is the 20 newest images, newest first |
| BananaPage.GenerateGuard | src/app/banana/page.tsx:249-274 | the four checks in order, each message iff the earlier checks pass and that one fails; proceeding carries the prompt used |
| BananaPage.ProceedMeansEnabled | src/app/banana/page.tsx:459-471 | whenever the checks let a generation through and none is running, the button is enabled |
| BananaPage.DisabledWithoutInputs | src/app/banana/page.tsx:459-471 | the button is disabled while a generation runs, without a token, without the main image, for a two-image effect without the second image, and for the custom effect with a blank prompt |
| BananaPage.EnabledWithoutEffect | src/app/banana/page.tsx:459-471 | with an image and no effect chosen the button is enabled, yet the checks refuse |
| BananaPage.ToggleMaskTool | src/app/banana/page.tsx:455-457 | the tool always changes, so mask becomes none and none becomes mask |
| BananaPage.ToggleTwice | src/app/banana/page.tsx:455-457 | toggling twice restores the tool |
| BananaPage.SelectTransformation | src/app/banana/page.tsx:157-164 | the effect is selected, the result and error are cleared, the custom prompt is kept only for the custom effect, and the images, mask and mode are untouched |
| BananaPage.SelectedPromptIsEffects | src/app/banana/page.tsx:259-262 | after choosing a built-in effect the prompt used is that effect's prompt |
| Strings.Split | src/app/banana/page.tsx:282-284 | `split` gives at least one piece and no piece contains the separator |
| Strings.SplitJoin | src/app/banana/page.tsx:282-284 | joining the pieces with the separator gives back the string |
| Strings.SplitHead | src/app/banana/page.tsx:282-284 | the first piece of `split` is the longest separator-free prefix |
| Strings.SplitSecond | src/app/banana/page.tsx:282-284 | when the separator occurs, there are at least two pieces and the second is the longest separator-free prefix after its first occurrence |
| BananaPage.MimeOf | src/app/banana/page.tsx:282-283 | "image/png" when the text before the first ";" has no ":"; otherwise the piece after its first ":" up to the next ":" |
| BananaPage.Base64Of | src/app/banana/page.tsx:284 | undefined iff the URL has no comma; otherwise the piece after the first comma up to the next |
| BananaPage.MimeOfDataUrl | src/app/banana/page.tsx:282-283 | the MIME type of a well-formed data URL is read back exactly |
| BananaPage.Base64OfDataUrl | src/app/banana/page.tsx:284 | the data of a well-formed data URL is read back exactly |
| BananaPage.DataUrlSplitRoundTrip | src/app/banana/page.tsx:282-284 | the page's split inverts the data-URL rendering of the service |
| Strings.BlankIffAllWhitespace | src/app/banana/page.tsx:263 | `!s.trim()` holds iff every character is white space |
| BananaPage.SingleStepRequest | src/app/banana/page.tsx:350-368 | the request has the primary image's data and type, the prompt, the mask's data when a mask is drawn, and a secondary image iff the effect is multi-image and a second image is set |
| BananaPage.RequestCarriesUpload | src/app/banana/page.tsx:351-368 | for a well-formed upload the service sends the uploaded data URL back unchanged |
| BananaPage.ResetToken | src/app/banana/page.tsx:380-384 | after the reset the session holds "" and the store reports using Stellar with a falsy token |
| BananaPage.ResetTokenRefusesNextEdit | src/app/banana/page.tsx:380-384 | without a `stellar` URL parameter, the edit request after the reset makes no call and fails with the missing-token message |
| BananaPage.PaymentBody | src/app/banana/page.tsx:214-223 | a bridge-shaped body with bridge false, the amount for the type and the fixed address |
| BananaPage.ConfirmPayment | src/app/banana/page.tsx:208-243 | the dialog closes and processing ends either way; a receipt gives the success toast, stores the paid token and turns on Stellar mode; a thrown value gives one error toast and changes nothing else |
| BananaPage.PaymentUnlocksGeneration | src/app/banana/page.tsx:227-233 | after a successful payment the service finds the paid token and Stellar mode is on |
| BananaPage.PaymentTypeOnlyNamesAmount | src/app/banana/page.tsx:216-225 | USDC and XLM payments make the same calls with the same outcome except the amount in the request body |
| TransformationOrder.RemoveAt | src/app/banana/components/TransformationSelector.tsx:39 | one element shorter, earlier elements in place, later ones shifted down by one |
| TransformationOrder.InsertAt | src/app/banana/components/TransformationSelector.tsx:40 | one element longer, the new element at the index, earlier elements in place, later ones shifted up |
| TransformationOrder.RemoveInsert | src/app/banana/components/TransformationSelector.tsx:39-40 | removing what was just inserted gives back the list |
| TransformationOrder.InsertRemove | src/app/banana/components/TransformationSelector.tsx:39-40 | reinserting a removed element at its old index gives back the list |
| TransformationOrder.InsertRemoveMultiset | src/app/banana/components/TransformationSelector.tsx:38-40 | removing and reinserting anywhere keeps the same elements |
| TransformationOrder.Move | src/app/banana/components/TransformationSelector.tsx:38-40 | the same length and elements, the moved element at the target, and the others in their old relative order |
| TransformationOrder.MoveBack | src/app/banana/components/TransformationSelector.tsx:38-40 | moving the element back restores the list |
| TransformationOrder.MovePositions | src/app/banana/components/TransformationSelector.tsx:38-40 | positions outside the span stay put, and those inside shift by one towards the vacated index |
| TransformationOrder.HandleDragEnd | src/app/banana/components/TransformationSelector.tsx:32-45 | a new order iff both indices are set and differ, and then the move between them; both indices are cleared either way |
| FormatAddress.Tail | lib/utils.ts:10 | `slice(-end)`: the last end characters, or the whole string when end is 0 or exceeds the length |
| FormatAddress.Format | lib/utils.ts:8-11 | a falsy address gives "No address found"; otherwise the first start characters, "...", and the tail |
| FormatAddress.LongAddressShape | lib/utils.ts:10 | for an address longer than both bounds the result has length start + end + 3, with a prefix and a suffix of the address |
| FormatAddress.ZeroEndRepeatsAddress | lib/utils.ts:10 | with end 0 the tail is the whole address |
| FormatAddress.DefaultKeyLength | lib/utils.ts:8 | a 56-character Stellar key renders in 11 characters with the default bounds |
| ReceiptMetadata.GeneratePaymentMetadata | src/lib/metadata-utils.ts:4-22 | the title and description name the amount and currency, and the Open Graph (website) and Twitter (summary) blocks repeat them |
| ReceiptMetadata.GenerateErrorMetadata | src/lib/metadata-utils.ts:24-29 | the constant error title and description, with no social blocks |
| ReceiptMetadata.MetadataMatchesShare | src/lib/metadata-utils.ts:5-6 | the page title and description equal the title and text the share button sends |
| ReceiptMetadata.TitleDeterminesAmount | src/lib/metadata-utils.ts:5 | receipts with different amount texts have different titles |
| ReceiptMetadata.PaymentTitleIsNotErrorTitle | src/lib/metadata-utils.ts:24-29 | no payment title equals the error title |
| Navigation.RootActiveOnlyAtRoot | src/components/bottom-navbar.tsx:35-37 | "/" is active iff the pathname is exactly "/" |
| Navigation.PrefixMatchesLongerName | src/components/bottom-navbar.tsx:38 | "/banana" is also active on "/bananas" and on its sub-paths, but not on "/" |
| Navigation.ActiveBelowHref | src/components/bottom-navbar.tsx:34-39 | any route but the root is active on itself and every pathname below it, and only on pathnames at least as long |
| Navigation.HrefsPrefixFree | src/components/bottom-navbar.tsx:8-29 | no item's href is a prefix of another's |
| Navigation.PrefixFreeExclusive | src/components/bottom-navbar.tsx:38 | a pathname cannot start with two hrefs neither of which is a prefix of the other |
| Navigation.AtMostOneActive | src/components/bottom-navbar.tsx:34-39 | at most one item is active for any pathname |

## Left out

- Floating point. `formatStellarAmount` (`toLocaleString`) is not modelled, so `FormattedBalance` has no `formattedBalance` field. The slippage arithmetic (`* 0.94`, `toFixed(2)`) of `convertXlmToUsdc` is not modelled either, so `StellarProvider.ConvertXlmToUsdc` returns the best path record instead of the rounded minimum amount.
- Amounts in a payment: `Number(amountUnits)` and `String(amount)` are kept as an abstract `JsNumber` that is passed through unchanged.
- `parseFloat` on text other than Horizon's decimal format, such as exponents, signs or trailing junk, is read as `NaN` (`None`).
- `Balances.SortForDisplay`: `localeCompare` is modelled as code-unit lexicographic order, not ICU collation.
- `Strings.ToUpper`: `toUpperCase` is modelled on ASCII letters only, so `AssetConfig.GetAssetByCode` matches only ASCII case variants.
- Stellar SDK internals are abstract, because they are foreign code: XDR encoding, `Transaction.hash()`, hex/base64 conversion, and `Asset`/`Memo` validation. A transaction is a record of source, fee, operations, memo and timeout.
- `isAccountNotFound`, `isTrustlineAlreadyExists` and `getStellarErrorMessage` (`src/lib/stellar/errors`) are not part of this model. Their verdicts are fields of the scripted outcomes.
- `JSON.parse` is an oracle: the saved transformation order, the stored history and a JSON error text arrive already parsed (`SavedOrder`, `StoredHistory`, `ErrorPayload`). The JSON parse of a non-object body inside `editImage` is likewise an input.
- `Js.Thrown`: a thrown value that is not an `Error` is modelled as `NonError`, which carries no `message`. So a thrown plain object with a string `message` reads as having none: `MessageOr` gives the fallback and `Auth.LooksLikeAuthError` is false, where the source would read that message. `throw null` or `throw undefined`, on which reading `.message` itself throws a `TypeError`, is not modelled either. The model assumes that Privy, Horizon and `fetch` reject with `Error` instances.
- `refreshAccount` awaited inside the hooks is treated as non-throwing, as `getAccountInfo` catches everything it can throw.
- The two-step generation path of `handleGenerate`, and `loadImage`, `resizeImageToMatch` and `embedWatermark` (`fileUtils`, which is not part of this model). They are image processing outside the paywall logic, and so is `handleUseImageAsInput`.
- React timing: effects are modelled in their steady state. The initial token sync effect of the page and the render order of state updates are not modelled.
- `TransformationOrder.HandleDragEnd`: requires both indices to lie within the list, because they come from rendering the list. The source does not guard against other indices.
- `FormatAddress.Format` takes non-negative bounds; the negative `slice` arguments JavaScript would accept are not modelled.
- Fields of a `Transformation` that the page logic does not read (title, emoji, description) are not modelled.
- Branches the types make dead are omitted: the `!token` check after looking up "USDC", the `!sourceAccount` check after a load that resolved, the falsy-hash check, and the outer `catch` of `getPaymentData`, whose callee never throws.
