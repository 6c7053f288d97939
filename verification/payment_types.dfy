/** The payment-intent records exchanged with the payment API
    (`src/lib/payment-api.ts`), reduced to the fields the application reads. */
module PaymentTypes {
  import opened Wrappers

  datatype Display = Display(intent: string, paymentValue: string, currency: string)

  datatype PayloadDestination = PayloadDestination(
    destinationAddress: string, chainId: string, amountUnits: string, tokenSymbol: string, tokenAddress: string)

  datatype PayloadMetadata = PayloadMetadata(daimoOrderId: string, intent: string)

  /** `PaymentPayload`: the body of a payment-intent creation. */
  datatype PaymentPayload = PaymentPayload(
    appId: string,
    display: Display,
    destination: PayloadDestination,
    externalId: string,
    metadata: PayloadMetadata,
    preferredChain: string,
    preferredToken: string)

  /** A JSON body posted to the create-payment route: a `PaymentPayload`, or
      the `{bridge, payload: {amount, address}}` object the image page sends. */
  datatype RequestBody =
    | PayloadBody(payload: PaymentPayload)
    | BridgeBody(bridge: bool, amount: string, address: string)

  datatype PaymentMetadata = PaymentMetadata(receivingAddress: Option<string>)

  datatype PaymentDestination = PaymentDestination(amountUnits: Option<string>)

  /** A payment intent as the API returns it (`RozoPayOrderView`). */
  datatype Payment = Payment(id: string, display: Display, metadata: Option<PaymentMetadata>, destination: PaymentDestination)

  datatype Source = Rozo | Daimo

  /** `PaymentResult`. */
  datatype PaymentResult = PaymentResult(success: bool, payment: Option<Payment>, source: Option<Source>, error: Option<string>)
}
