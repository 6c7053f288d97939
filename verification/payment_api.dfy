/** `src/lib/payment-api.ts`: the environment check, the generic GET fetcher,
    the payment lookup with its Rozo-then-Daimo fallback, and payment-intent
    creation. The two upstream APIs are reached only through `fetch`, whose
    outcomes are inputs. */
module PaymentApi {
  import opened Wrappers
  import opened Strings
  import opened Js
  import opened Http
  import opened Calls
  import opened PaymentTypes

  /** `ROZO_API_URL`, `ROZO_API_KEY`, `DAIMO_API_URL`, `DAIMO_API_KEY`. */
  datatype Env = Env(rozoUrl: Option<string>, rozoKey: Option<string>, daimoUrl: Option<string>, daimoKey: Option<string>)

  datatype ApiConfig = ApiConfig(url: string, headers: seq<Header>)

  datatype Configs = Configs(rozo: ApiConfig, daimo: ApiConfig)

  const CONFIG_MISSING: string := "API configuration is missing. Please check environment variables."

  /** `validateEnvironment`: all four variables must be non-empty; Rozo
      authenticates with a bearer token, Daimo with an `Api-Key` header. */
  function ValidateEnvironment(env: Env): (r: Option<Configs>)
    ensures r.Some? <==> Present(env.rozoUrl) && Present(env.rozoKey) && Present(env.daimoUrl) && Present(env.daimoKey)
    ensures r.Some? ==> r.value.rozo == ApiConfig(env.rozoUrl.value, [Header("Authorization", "Bearer " + env.rozoKey.value)])
    ensures r.Some? ==> r.value.daimo == ApiConfig(env.daimoUrl.value, [Header("Api-Key", env.daimoKey.value)])
  {
    if !Present(env.rozoUrl) || !Present(env.rozoKey) || !Present(env.daimoUrl) || !Present(env.daimoKey) then None
    else Some(Configs(
      ApiConfig(env.rozoUrl.value, [Header("Authorization", "Bearer " + env.rozoKey.value)]),
      ApiConfig(env.daimoUrl.value, [Header("Api-Key", env.daimoKey.value)])))
  }

  /** `ApiResponse`; `data` is `None` also when the body parsed to `null`. */
  datatype ApiResponse = ApiResponse(success: bool, data: Option<Payment>, error: Option<string>)

  /** `` `API request failed: ${status} ${statusText}` ``. */
  function StatusError(status: nat, statusText: string): string {
    "API request failed: " + NatToString(status) + " " + statusText
  }

  /** The status is recoverable from the message: it is the digit run
      between the fixed prefix and the first space after it. */
  lemma StatusErrorNamesStatus(status: nat, statusText: string)
    ensures var m := StatusError(status, statusText);
      var digits := m[20..20 + |NatToString(status)|];
      StartsWith(m, "API request failed: ") && AllDigits(digits) && DigitsValue(digits) == status
      && m[20 + |digits|] == ' ' && m[21 + |digits|..] == statusText
  {
    var m := StatusError(status, statusText);
    var digits := NatToString(status);
    var prefix := "API request failed: ";
    assert |prefix| == 20;
    assert m == prefix + (digits + " " + statusText);
    assert m[..20] == prefix;
    assert m[20..] == digits + " " + statusText;
    assert m[20..20 + |digits|] == (digits + " " + statusText)[..|digits|] == digits;
    assert m[21 + |digits|..] == (digits + " " + statusText)[|digits| + 1..] == statusText;
    NatToStringValue(status);
  }

  /** What a JSON `fetch` settles to once the caller's `try` has run: a
      non-ok status or a rejection (of `fetch` or of `json()`) is a failure
      with a message, anything else a success with the parsed body. */
  function Settle(outcome: FetchOutcome<Option<Payment>>, thrownFallback: string): (r: ApiResponse)
    ensures r.success <==> outcome.Responded? && IsOk(outcome.status) && outcome.json.JsonValue?
    ensures r.success ==> r.data == outcome.json.value && r.error.None?
    ensures !r.success ==> r.data.None? && r.error.Some?
    ensures outcome.Responded? && !IsOk(outcome.status) ==> r.error == Some(StatusError(outcome.status, outcome.statusText))
    ensures outcome.FetchThrew? ==> r.error == Some(InstanceMessage(outcome.error, thrownFallback))
    ensures outcome.Responded? && IsOk(outcome.status) && outcome.json.JsonThrew? ==>
      r.error == Some(InstanceMessage(outcome.json.error, thrownFallback))
  {
    match outcome
    case FetchThrew(e) => ApiResponse(false, None, Some(InstanceMessage(e, thrownFallback)))
    case Responded(status, statusText, json) =>
      if !IsOk(status) then ApiResponse(false, None, Some(StatusError(status, statusText)))
      else
        match json
        case JsonThrew(e) => ApiResponse(false, None, Some(InstanceMessage(e, thrownFallback)))
        case JsonValue(data) => ApiResponse(true, data, None)
  }

  /** The GET that `fetchFromAPI(url, headers)` issues. */
  function GetRequest(url: string, headers: seq<Header>): (r: Request)
    ensures r.verb == "GET" && r.url == url && r.headers == [JSON_CONTENT_TYPE] + headers && r.body.NoBody?
  {
    Request("GET", url, [JSON_CONTENT_TYPE] + headers, NoBody)
  }

  /** `fetchFromAPI`: never throws. */
  function FetchFromApi(outcome: FetchOutcome<Option<Payment>>): (r: ApiResponse)
    ensures r.success <==> outcome.Responded? && IsOk(outcome.status) && outcome.json.JsonValue?
    ensures r.success ==> r.data == outcome.json.value
    ensures outcome.FetchThrew? && outcome.error.NonError? ==> r.error == Some("Unknown error occurred")
    ensures outcome.FetchThrew? && outcome.error.ErrorObject? ==> r.error == Some(outcome.error.message)
  {
    Settle(outcome, "Unknown error occurred")
  }

  /** A value with the `fetch` calls made for it. */
  datatype Traced = Traced(result: PaymentResult, trace: seq<Call>)

  function RozoLookupUrl(configs: Configs, id: string): string {
    configs.rozo.url + "/payment-api/external-id/" + id
  }

  function DaimoLookupUrl(configs: Configs, id: string): string {
    configs.daimo.url + "/payment/" + id
  }

  /** A result found by one API. */
  predicate Found(a: ApiResponse) {
    a.success && a.data.Some?
  }

  /** `getPaymentData(id)`: Rozo first, Daimo only when Rozo gave no payment.
      The outer `catch` is unreachable because `fetchFromAPI` never throws. */
  function GetPaymentData(id: string, env: Env, rozo: FetchOutcome<Option<Payment>>, daimo: FetchOutcome<Option<Payment>>): (r: Traced)
    ensures !Truthy(id) ==> r == Traced(PaymentResult(false, None, None, Some("Payment ID is required")), [])
    ensures Truthy(id) && ValidateEnvironment(env).None? ==> r == Traced(PaymentResult(false, None, None, Some(CONFIG_MISSING)), [])
    ensures r.result.success <==> (Truthy(id) && ValidateEnvironment(env).Some?
      && (Found(FetchFromApi(rozo)) || Found(FetchFromApi(daimo))))
    ensures r.result.success ==> r.result.payment.Some? && r.result.error.None? && r.result.source.Some?
  {
    if !Truthy(id) then Traced(PaymentResult(false, None, None, Some("Payment ID is required")), [])
    else
      match ValidateEnvironment(env)
      case None => Traced(PaymentResult(false, None, None, Some(CONFIG_MISSING)), [])
      case Some(configs) =>
        var rozoCall := Fetch(GetRequest(RozoLookupUrl(configs, id), configs.rozo.headers));
        var rozoResult := FetchFromApi(rozo);
        if Found(rozoResult) then Traced(PaymentResult(true, rozoResult.data, Some(Rozo), None), [rozoCall])
        else
          var daimoCall := Fetch(GetRequest(DaimoLookupUrl(configs, id), configs.daimo.headers));
          var daimoResult := FetchFromApi(daimo);
          if Found(daimoResult) then Traced(PaymentResult(true, daimoResult.data, Some(Daimo), None), [rozoCall, daimoCall])
          else Traced(
            PaymentResult(false, None, None,
              Some("Payment not found. Rozo API: " + Render(rozoResult.error) + ", Daimo API: " + Render(daimoResult.error))),
            [rozoCall, daimoCall])
  }

  /** The fallback order: a payment from Rozo wins and Daimo is not asked;
      Daimo is asked exactly when Rozo gave none, and then its payment is the
      answer. */
  lemma LookupPrefersRozo(id: string, env: Env, rozo: FetchOutcome<Option<Payment>>, daimo: FetchOutcome<Option<Payment>>)
    requires Truthy(id) && ValidateEnvironment(env).Some?
    ensures var r := GetPaymentData(id, env, rozo, daimo);
      var configs := ValidateEnvironment(env).value;
      r.trace[0] == Fetch(GetRequest(RozoLookupUrl(configs, id), configs.rozo.headers))
      && (Found(FetchFromApi(rozo)) ==>
            |r.trace| == 1 && r.result.source == Some(Rozo) && r.result.payment == FetchFromApi(rozo).data)
      && (!Found(FetchFromApi(rozo)) ==>
            r.trace == [r.trace[0], Fetch(GetRequest(DaimoLookupUrl(configs, id), configs.daimo.headers))]
            && (r.result.success ==> r.result.source == Some(Daimo) && r.result.payment == FetchFromApi(daimo).data))
  {
  }

  /** When neither API has the payment, the message reports both APIs'
      errors, in that order. */
  lemma NotFoundReportsBoth(id: string, env: Env, rozo: FetchOutcome<Option<Payment>>, daimo: FetchOutcome<Option<Payment>>)
    requires Truthy(id) && ValidateEnvironment(env).Some?
    requires !Found(FetchFromApi(rozo)) && !Found(FetchFromApi(daimo))
    ensures var e := GetPaymentData(id, env, rozo, daimo).result.error;
      e.Some? && StartsWith(e.value, "Payment not found. Rozo API: ")
      && OccursAt(e.value, Render(FetchFromApi(rozo).error), 29)
      && e.value[29 + |Render(FetchFromApi(rozo).error)|..] == ", Daimo API: " + Render(FetchFromApi(daimo).error)
  {
    var e := GetPaymentData(id, env, rozo, daimo).result.error.value;
    var prefix := "Payment not found. Rozo API: ";
    var rendered := Render(FetchFromApi(rozo).error);
    var rest := ", Daimo API: " + Render(FetchFromApi(daimo).error);
    assert e == prefix + rendered + rest;
    assert |prefix| == 29;
    JoinedPieces(prefix, rendered, rest);
  }

  /** The three pieces of a joined string can be read back by position. */
  lemma JoinedPieces(p: string, a: string, q: string)
    ensures var e := p + a + q;
      e[..|p|] == p && e[|p|..|p| + |a|] == a && e[|p| + |a|..] == q
  {
  }

  /** The POST of `createPayment`: the body is forwarded verbatim. */
  function CreateRequest(configs: Configs, body: RequestBody): (r: Request)
    ensures r.verb == "POST" && r.url == configs.rozo.url + "/payment-api"
    ensures r.headers == [JSON_CONTENT_TYPE] + configs.rozo.headers && r.body == PaymentJson(body)
  {
    Request("POST", configs.rozo.url + "/payment-api", [JSON_CONTENT_TYPE] + configs.rozo.headers, PaymentJson(body))
  }

  /** `createPayment(payload)`: only the Rozo API is used. It never throws. */
  function CreatePayment(body: RequestBody, env: Env, outcome: FetchOutcome<Option<Payment>>): (r: Traced)
    ensures ValidateEnvironment(env).None? ==> r == Traced(PaymentResult(false, None, None, Some(CONFIG_MISSING)), [])
    ensures ValidateEnvironment(env).Some? ==> r.trace == [Fetch(CreateRequest(ValidateEnvironment(env).value, body))]
    ensures r.result.success <==> ValidateEnvironment(env).Some? && outcome.Responded? && IsOk(outcome.status) && outcome.json.JsonValue?
    ensures r.result.success ==> r.result.payment == outcome.json.value && r.result.error.None?
    ensures !r.result.success ==> r.result.error.Some? && r.result.payment.None?
    ensures r.result.source.None?
  {
    match ValidateEnvironment(env)
    case None => Traced(PaymentResult(false, None, None, Some(CONFIG_MISSING)), [])
    case Some(configs) =>
      var settled := Settle(outcome, "Unexpected error occurred");
      Traced(PaymentResult(settled.success, settled.data, None, settled.error), [Fetch(CreateRequest(configs, body))])
  }
}
