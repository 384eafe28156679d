/**
  The payment processor's objects and request options, and its
  payment-intent service. The processor is not modelled: each call's answer
  comes from an arbitrary oracle that may also reject the call (a
  `StripeException`).
 */
module Gateway {
  import opened Wrappers
  import opened DotNet

  /** A processor answer: the object asked for, or a rejection with its message. */
  datatype Reply<+T> = Replied(value: T) | Rejected(message: string)

  datatype PaymentIntent = PaymentIntent(
    id: NString,
    clientSecret: NString,
    status: NString,
    amount: Int64,
    currency: NString,
    metadata: map<string, string>)

  /** `PaymentIntentCreateOptions`; a field left unset is None. */
  datatype IntentCreateOptions = IntentCreateOptions(
    amount: Int64,
    currency: NString,
    customer: NString,
    paymentMethod: NString,
    description: NString,
    metadata: map<string, string>,
    captureMethod: NString,
    setupFutureUsage: NString)

  /** `PaymentIntentConfirmOptions` */
  datatype IntentConfirmOptions = IntentConfirmOptions(paymentMethod: NString)

  /** One request made to the payment-intent service. */
  datatype IntentCall =
    | CreateIntent(options: IntentCreateOptions)
    | ConfirmIntent(intentId: NString, confirmOptions: IntentConfirmOptions)

  /**
    The processor's payment-intent service as its caller sees it: every
    request is recorded in `calls`, and its answer is whatever `respond`
    gives for the history of requests up to and including this one.
   */
  class IntentService {
    const respond: seq<IntentCall> -> Reply<PaymentIntent>
    var calls: seq<IntentCall>

    constructor (respond: seq<IntentCall> -> Reply<PaymentIntent>)
      ensures this.respond == respond && calls == []
    {
      this.respond := respond;
      calls := [];
    }

    /** `PaymentIntentService.CreateAsync` */
    method CreateAsync(options: IntentCreateOptions) returns (r: Reply<PaymentIntent>)
      modifies this
      ensures calls == old(calls) + [CreateIntent(options)]
      ensures r == respond(calls)
    {
      calls := calls + [CreateIntent(options)];
      r := respond(calls);
    }

    /** `PaymentIntentService.ConfirmAsync` */
    method ConfirmAsync(intentId: NString, options: IntentConfirmOptions) returns (r: Reply<PaymentIntent>)
      modifies this
      ensures calls == old(calls) + [ConfirmIntent(intentId, options)]
      ensures r == respond(calls)
    {
      calls := calls + [ConfirmIntent(intentId, options)];
      r := respond(calls);
    }
  }

  /** `RefundCreateOptions` */
  datatype RefundCreateOptions = RefundCreateOptions(
    paymentIntent: NString,
    amount: Option<Int64>,
    reason: NString)

  datatype Refund = Refund(id: NString, status: NString, amount: Int64, currency: NString)

  datatype CardOptions = CardOptions(token: NString)

  /** `PaymentMethodCreateOptions` */
  datatype PaymentMethodCreateOptions = PaymentMethodCreateOptions(methodType: string, card: CardOptions)

  datatype Card = Card(brand: NString, last4: NString, expMonth: Int64, expYear: Int64)

  /** A payment method; `card` is null for methods that are not cards. */
  datatype PaymentMethod = PaymentMethod(id: NString, card: Option<Card>)

  datatype Charge = Charge(id: NString)

  /** The object an event carries, whatever its declared type. */
  datatype EventObject =
    | IntentObject(intent: PaymentIntent)
    | ChargeObject(charge: Charge)
    | OtherObject

  /** A webhook event after its signature has been checked. */
  datatype Event = Event(eventType: string, data: EventObject)
}
