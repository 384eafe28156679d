/** The request and response bodies of the HTTP API. */
module Models {
  import opened Wrappers
  import opened DotNet
  import opened Gateway

  datatype CreatePaymentPlanRequest = CreatePaymentPlanRequest(
    totalAmount: Int64,
    currency: NString,
    numberOfInstallments: Int32,
    customerId: NString,
    paymentMethodId: NString,
    description: NString)

  datatype PaymentIntentResponse = PaymentIntentResponse(
    clientSecret: NString,
    paymentIntentId: NString,
    status: NString,
    amount: Int64,
    currency: NString)

  datatype PaymentPlanResponse = PaymentPlanResponse(
    planId: string,
    numberOfInstallments: Int32,
    installmentAmount: Int64,
    installments: seq<PaymentIntentResponse>)

  datatype CreatePaymentIntentRequest = CreatePaymentIntentRequest(
    amount: Int64,
    currency: NString,
    description: NString,
    customerId: NString,
    metadata: map<string, string>)

  datatype ConfirmPaymentIntentRequest = ConfirmPaymentIntentRequest(
    paymentIntentId: NString,
    paymentMethodId: NString)

  datatype CreateRefundRequest = CreateRefundRequest(
    paymentIntentId: NString,
    amount: Option<Int64>,
    reason: NString)

  datatype RefundResponse = RefundResponse(
    refundId: NString,
    status: NString,
    amount: Int64,
    currency: NString)

  /** Only the card token the service reads is modelled. */
  datatype CreatePaymentMethodRequest = CreatePaymentMethodRequest(token: NString)

  datatype CreatePaymentMethodResponse = CreatePaymentMethodResponse(
    paymentMethodId: NString,
    cardBrand: NString,
    cardLast4: NString,
    expiryMonth: Int64,
    expiryYear: Int64)

  datatype WebhookResponse = WebhookResponse(success: bool, message: string, eventType: NString)

  /** The response body both services build from a processor payment intent. */
  function IntentResponseOf(intent: PaymentIntent): PaymentIntentResponse {
    PaymentIntentResponse(intent.clientSecret, intent.id, intent.status, intent.amount, intent.currency)
  }
}
