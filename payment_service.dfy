/**
  The payment service: each operation builds the processor's request
  options from an API request, makes one processor call, and maps the
  answer to a response body. A processor rejection is rethrown as an
  `ApplicationException` whose message names the operation. The processor
  call is a parameter of each operation.
 */
module PaymentService {
  import opened Wrappers
  import opened DotNet
  import opened Gateway
  import opened Models

  /** The exception thrown for a rejected processor call: `prefix` followed by the processor's message. */
  function Rethrown<T>(prefix: string, reply: Reply<T>): (e: Exception)
    requires reply.Rejected?
    ensures e.kind == ApplicationException && e.message == prefix + reply.message
  {
    ApplicationError(prefix + reply.message)
  }

  // ---------------------------------------------------------------------------
  // Payment intents

  const CreateIntentErrorPrefix := "Error creating payment intent: "
  const ConfirmIntentErrorPrefix := "Error confirming payment intent: "

  /**
    The options for a single payment intent: the request's amount, currency,
    description and metadata, future off-session use, and the customer only
    when one is given. No payment method or capture method is set.
   */
  function IntentOptionsFor(request: CreatePaymentIntentRequest): (o: IntentCreateOptions)
    ensures o.amount == request.amount && o.currency == request.currency
    ensures o.description == request.description && o.metadata == request.metadata
    ensures o.setupFutureUsage == Some("off_session")
    ensures IsNullOrEmpty(request.customerId) <==> o.customer.None?
    ensures o.customer.Some? ==> o.customer == request.customerId
    ensures o.paymentMethod.None? && o.captureMethod.None?
  {
    var options := IntentCreateOptions(request.amount, request.currency, None, None,
                                       request.description, request.metadata, None, Some("off_session"));
    if !IsNullOrEmpty(request.customerId) then options.(customer := request.customerId) else options
  }

  /** The response for an intent answer: its fields copied unchanged. */
  lemma IntentResponseCopies(intent: PaymentIntent)
    ensures var r := IntentResponseOf(intent);
      r.clientSecret == intent.clientSecret && r.paymentIntentId == intent.id &&
      r.status == intent.status && r.amount == intent.amount && r.currency == intent.currency
  {
  }

  /** `CreatePaymentIntentAsync`, with `create` standing for `PaymentIntentService.CreateAsync`. */
  function CreatePaymentIntent(request: CreatePaymentIntentRequest,
                               create: IntentCreateOptions -> Reply<PaymentIntent>)
    : (r: Result<PaymentIntentResponse, Exception>)
    ensures var reply := create(IntentOptionsFor(request));
      (r.Ok? <==> reply.Replied?) &&
      (r.Ok? ==> r.value == IntentResponseOf(reply.value)) &&
      (r.Err? ==> r.error == ApplicationError(CreateIntentErrorPrefix + reply.message))
  {
    var reply := create(IntentOptionsFor(request));
    if reply.Rejected? then Err(Rethrown(CreateIntentErrorPrefix, reply))
    else Ok(IntentResponseOf(reply.value))
  }

  /**
    `ConfirmPaymentIntentAsync`, with `confirm` standing for
    `PaymentIntentService.ConfirmAsync`: the intent id and the payment method
    are passed as given.
   */
  function ConfirmPaymentIntent(request: ConfirmPaymentIntentRequest,
                                confirm: (NString, IntentConfirmOptions) -> Reply<PaymentIntent>)
    : (r: Result<PaymentIntentResponse, Exception>)
    ensures var reply := confirm(request.paymentIntentId, IntentConfirmOptions(request.paymentMethodId));
      (r.Ok? <==> reply.Replied?) &&
      (r.Ok? ==> r.value == IntentResponseOf(reply.value)) &&
      (r.Err? ==> r.error == ApplicationError(ConfirmIntentErrorPrefix + reply.message))
  {
    var reply := confirm(request.paymentIntentId, IntentConfirmOptions(request.paymentMethodId));
    if reply.Rejected? then Err(Rethrown(ConfirmIntentErrorPrefix, reply))
    else Ok(IntentResponseOf(reply.value))
  }

  // ---------------------------------------------------------------------------
  // Refunds

  const RefundErrorPrefix := "Error refunding payment: "

  /** The refund reasons the processor accepts. */
  predicate IsRefundReason(s: string) {
    s == "duplicate" || s == "fraudulent" || s == "requested_by_customer"
  }

  /** One character lower-cased: A to Z become a to z. */
  function LowerChar(c: char): char {
    if 'A' <= c <= 'Z' then (c as int + 32) as char else c
  }

  /**
    `string.ToLower()` on letters A to Z: the result has no capital A to Z
    left, each capital becomes its own small letter, and every other
    character is kept.
   */
  function ToLower(s: string): (t: string)
    ensures |t| == |s|
    ensures forall i :: 0 <= i < |t| ==> !('A' <= t[i] <= 'Z')
    ensures forall i :: 0 <= i < |s| && !('A' <= s[i] <= 'Z') ==> t[i] == s[i]
    ensures forall i :: 0 <= i < |s| && 'A' <= s[i] <= 'Z' ==>
      'a' <= t[i] <= 'z' && t[i] as int - 'a' as int == s[i] as int - 'A' as int
  {
    seq(|s|, i requires 0 <= i < |s| => LowerChar(s[i]))
  }

  /** Lower-casing twice is lower-casing once. */
  lemma ToLowerIdempotent(s: string)
    ensures ToLower(ToLower(s)) == ToLower(s)
  {
    var t := ToLower(s);
    var u := ToLower(t);
    assert forall i :: 0 <= i < |t| ==> u[i] == t[i];
  }

  /**
    The `switch` on the lower-cased reason: a null reason stays null, a
    reason that is one of the accepted ones once lower-cased becomes that
    lower-case reason, and anything else becomes null.
   */
  function NormalizeReason(reason: NString): (r: NString)
    ensures reason.None? ==> r.None?
    ensures r.Some? <==> reason.Some? && IsRefundReason(ToLower(reason.value))
    ensures r.Some? ==> r.value == ToLower(reason.value)
  {
    if reason.None? then None
    else
      var lower := ToLower(reason.value);
      if IsRefundReason(lower) then Some(lower) else None
  }

  /** Normalising a normalised reason changes nothing. */
  lemma NormalizeReasonIdempotent(reason: NString)
    ensures NormalizeReason(NormalizeReason(reason)) == NormalizeReason(reason)
  {
    if reason.Some? {
      ToLowerIdempotent(reason.value);
    }
  }

  /** Reasons that differ only in the case of their letters are normalised alike. */
  lemma NormalizeReasonIgnoresCase(a: string, b: string)
    requires ToLower(a) == ToLower(b)
    ensures NormalizeReason(Some(a)) == NormalizeReason(Some(b))
  {
  }

  /** An accepted reason, in any mix of cases, is normalised to its lower-case form. */
  lemma NormalizeReasonAccepts(reason: string, upper: string)
    requires IsRefundReason(reason) && ToLower(upper) == reason
    ensures NormalizeReason(Some(upper)) == Some(reason)
  {
  }

  /** The refund options: the intent and the optional amount passed through, with the normalised reason. */
  function RefundOptionsFor(request: CreateRefundRequest): (o: RefundCreateOptions)
    ensures o.paymentIntent == request.paymentIntentId && o.amount == request.amount
    ensures o.reason == NormalizeReason(request.reason)
  {
    RefundCreateOptions(request.paymentIntentId, request.amount, NormalizeReason(request.reason))
  }

  /** `RefundPaymentAsync`, with `create` standing for `RefundService.CreateAsync`. */
  function RefundPayment(request: CreateRefundRequest, create: RefundCreateOptions -> Reply<Refund>)
    : (r: Result<RefundResponse, Exception>)
    ensures var reply := create(RefundOptionsFor(request));
      (r.Ok? <==> reply.Replied?) &&
      (r.Ok? ==> r.value == RefundResponse(reply.value.id, reply.value.status, reply.value.amount, reply.value.currency)) &&
      (r.Err? ==> r.error == ApplicationError(RefundErrorPrefix + reply.message))
  {
    var reply := create(RefundOptionsFor(request));
    if reply.Rejected? then Err(Rethrown(RefundErrorPrefix, reply))
    else
      var refund := reply.value;
      Ok(RefundResponse(refund.id, refund.status, refund.amount, refund.currency))
  }

  // ---------------------------------------------------------------------------
  // Payment methods

  const PaymentMethodErrorPrefix := "Error creating payment method: "
  const TokenRequiredMessage := "Payment token is required."

  /** The options for a card payment method made from a token. */
  function PaymentMethodOptionsFor(token: string): (o: PaymentMethodCreateOptions)
    ensures o.methodType == "card" && o.card.token == Some(token)
  {
    PaymentMethodCreateOptions("card", CardOptions(Some(token)))
  }

  /**
    `CreatePaymentMethodAsync`, with `create` standing for
    `PaymentMethodService.CreateAsync`: a null or empty token is refused
    with an `ApplicationException` before any processor call (it is not a
    processor exception, so it is not rewrapped); a method without card
    details makes the response mapping throw.
   */
  function CreatePaymentMethod(request: CreatePaymentMethodRequest,
                               create: PaymentMethodCreateOptions -> Reply<PaymentMethod>)
    : (r: Result<CreatePaymentMethodResponse, Exception>)
    ensures IsNullOrEmpty(request.token) ==> r == Err(ApplicationError(TokenRequiredMessage))
    ensures !IsNullOrEmpty(request.token) ==>
      var reply := create(PaymentMethodOptionsFor(request.token.value));
      (reply.Rejected? ==> r == Err(ApplicationError(PaymentMethodErrorPrefix + reply.message))) &&
      (reply.Replied? && reply.value.card.None? ==> r == Err(NullReference)) &&
      (r.Ok? <==> reply.Replied? && reply.value.card.Some?) &&
      (r.Ok? ==>
         var card := reply.value.card.value;
         r.value == CreatePaymentMethodResponse(reply.value.id, card.brand, card.last4, card.expMonth, card.expYear))
  {
    if IsNullOrEmpty(request.token) then Err(ApplicationError(TokenRequiredMessage))
    else
      var reply := create(PaymentMethodOptionsFor(request.token.value));
      if reply.Rejected? then Err(Rethrown(PaymentMethodErrorPrefix, reply))
      else if reply.value.card.None? then Err(NullReference)
      else
        var card := reply.value.card.value;
        Ok(CreatePaymentMethodResponse(reply.value.id, card.brand, card.last4, card.expMonth, card.expYear))
  }

  /** A missing token is refused whatever the processor would answer: the processor is not consulted. */
  lemma MissingTokenConsultsNoProcessor(request: CreatePaymentMethodRequest,
                                        create1: PaymentMethodCreateOptions -> Reply<PaymentMethod>,
                                        create2: PaymentMethodCreateOptions -> Reply<PaymentMethod>)
    requires IsNullOrEmpty(request.token)
    ensures CreatePaymentMethod(request, create1) == CreatePaymentMethod(request, create2)
  {
  }
}
