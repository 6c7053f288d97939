/** The `POST` handler of `src/app/api/create-payment/route.ts`: parse the
    JSON body, create the payment intent upstream, and answer 200, 400 or 500. */
module CreatePaymentRoute {
  import opened Wrappers
  import opened Js
  import opened Http
  import opened Calls
  import opened PaymentTypes
  import opened PaymentApi

  /** A `NextResponse.json` reply: its status and its JSON body. */
  datatype RouteResponse = RouteResponse(status: nat, body: PaymentResult)

  datatype Handled = Handled(response: RouteResponse, trace: seq<Call>)

  /** `POST(request)`. `request` is what `request.json()` settles to. */
  function Post(request: JsonBody<RequestBody>, env: Env, upstream: FetchOutcome<Option<Payment>>): (r: Handled)
    ensures r.response.status == 200 || r.response.status == 400 || r.response.status == 500
    ensures r.response.status == 200 <==> r.response.body.success
    ensures r.response.status == 500 <==> request.JsonThrew?
    ensures request.JsonThrew? ==>
      r == Handled(RouteResponse(500, PaymentResult(false, None, None, Some(InstanceMessage(request.error, "Invalid request data")))), [])
    ensures request.JsonValue? ==>
      var created := CreatePayment(request.value, env, upstream);
      r.trace == created.trace
      && (created.result.success ==> r.response.body == PaymentResult(true, created.result.payment, None, None))
      && (!created.result.success ==> r.response.body == PaymentResult(false, None, None, created.result.error))
  {
    match request
    case JsonThrew(e) =>
      Handled(RouteResponse(500, PaymentResult(false, None, None, Some(InstanceMessage(e, "Invalid request data")))), [])
    case JsonValue(body) =>
      // `createPayment` catches its own failures, so the 500 branch is reached only by the parse
      var created := CreatePayment(body, env, upstream);
      if created.result.success then Handled(RouteResponse(200, PaymentResult(true, created.result.payment, None, None)), created.trace)
      else Handled(RouteResponse(400, PaymentResult(false, None, None, created.result.error)), created.trace)
  }

  /** The route forwards the parsed body verbatim to the Rozo API, and its
      answer is 200 exactly when that API answered with an ok status and a
      readable body. */
  lemma RouteForwardsBody(body: RequestBody, env: Env, upstream: FetchOutcome<Option<Payment>>)
    requires ValidateEnvironment(env).Some?
    ensures var r := Post(JsonValue(body), env, upstream);
      |r.trace| == 1 && r.trace[0].Fetch? && r.trace[0].http.body == PaymentJson(body)
      && r.trace[0].http.url == ValidateEnvironment(env).value.rozo.url + "/payment-api"
      && (r.response.status == 200 <==> upstream.Responded? && IsOk(upstream.status) && upstream.json.JsonValue?)
  {
  }

  /** Without configuration the route answers 400 and makes no call. */
  lemma MissingConfigIs400(body: RequestBody, env: Env, upstream: FetchOutcome<Option<Payment>>)
    requires ValidateEnvironment(env).None?
    ensures Post(JsonValue(body), env, upstream) == Handled(RouteResponse(400, PaymentResult(false, None, None, Some(CONFIG_MISSING))), [])
  {
  }
}
