/**
  The payment endpoints: each checks its request, answers 400 with the
  first failing check's message, and otherwise answers with the payment
  service's result, every exception becoming a 500.
 */
module PaymentsController {
  import opened Wrappers
  import opened DotNet
  import opened Gateway
  import opened Models
  import PaymentService

  const AmountRequired := "Amount must be greater than 0"
  const TokenRequired := "Payment token is required"
  const IntentIdRequired := "Payment intent ID is required"
  const PaymentMethodIdRequired := "Payment method ID is required"

  /** `CreatePaymentIntent`: only a positive amount is required. */
  function CreatePaymentIntent(request: CreatePaymentIntentRequest,
                               create: IntentCreateOptions -> Reply<PaymentIntent>)
    : (r: ActionResult<PaymentIntentResponse>)
    ensures request.amount <= 0 <==> r == BadRequest(AmountRequired)
    ensures request.amount > 0 ==> r == ActionOf(PaymentService.CreatePaymentIntent(request, create))
  {
    if request.amount <= 0 then BadRequest(AmountRequired)
    else ActionOf(PaymentService.CreatePaymentIntent(request, create))
  }

  /** `CreatePaymentMethod`: a null or empty token is refused. */
  function CreatePaymentMethod(request: CreatePaymentMethodRequest,
                               create: PaymentMethodCreateOptions -> Reply<PaymentMethod>)
    : (r: ActionResult<CreatePaymentMethodResponse>)
    ensures IsNullOrEmpty(request.token) <==> r == BadRequest(TokenRequired)
    ensures !IsNullOrEmpty(request.token) ==> r == ActionOf(PaymentService.CreatePaymentMethod(request, create))
  {
    if IsNullOrEmpty(request.token) then BadRequest(TokenRequired)
    else ActionOf(PaymentService.CreatePaymentMethod(request, create))
  }

  /**
    The service's own token check cannot be reached through the endpoint:
    the endpoint refuses a missing token first, so no 500 carries the
    service's token message.
   */
  lemma ServiceTokenCheckUnreachable(request: CreatePaymentMethodRequest,
                                     create: PaymentMethodCreateOptions -> Reply<PaymentMethod>)
    ensures CreatePaymentMethod(request, create) != ServerError(PaymentService.TokenRequiredMessage)
  {
    if !IsNullOrEmpty(request.token) {
      var reply := create(PaymentService.PaymentMethodOptionsFor(request.token.value));
      if reply.Rejected? {
        var message := PaymentService.PaymentMethodErrorPrefix + reply.message;
        assert message[..|PaymentService.PaymentMethodErrorPrefix|] == PaymentService.PaymentMethodErrorPrefix;
        assert message[0] != PaymentService.TokenRequiredMessage[0];
      }
    }
  }

  /**
    `ConfirmPaymentIntent`: an intent id is required, and then a payment
    method id; the service runs only when both are given.
   */
  function ConfirmPaymentIntent(request: ConfirmPaymentIntentRequest,
                                confirm: (NString, IntentConfirmOptions) -> Reply<PaymentIntent>)
    : (r: ActionResult<PaymentIntentResponse>)
    ensures IsNullOrEmpty(request.paymentIntentId) ==> r == BadRequest(IntentIdRequired)
    ensures !IsNullOrEmpty(request.paymentIntentId) && IsNullOrEmpty(request.paymentMethodId) ==>
      r == BadRequest(PaymentMethodIdRequired)
    ensures r.BadRequest? <==> IsNullOrEmpty(request.paymentIntentId) || IsNullOrEmpty(request.paymentMethodId)
    ensures !r.BadRequest? ==> r == ActionOf(PaymentService.ConfirmPaymentIntent(request, confirm))
  {
    if IsNullOrEmpty(request.paymentIntentId) then BadRequest(IntentIdRequired)
    else if IsNullOrEmpty(request.paymentMethodId) then BadRequest(PaymentMethodIdRequired)
    else ActionOf(PaymentService.ConfirmPaymentIntent(request, confirm))
  }

  /** `RefundPayment`: only the intent id is checked; the amount and the reason go to the service as given. */
  function RefundPayment(request: CreateRefundRequest, create: RefundCreateOptions -> Reply<Refund>)
    : (r: ActionResult<RefundResponse>)
    ensures IsNullOrEmpty(request.paymentIntentId) <==> r == BadRequest(IntentIdRequired)
    ensures !IsNullOrEmpty(request.paymentIntentId) ==> r == ActionOf(PaymentService.RefundPayment(request, create))
  {
    if IsNullOrEmpty(request.paymentIntentId) then BadRequest(IntentIdRequired)
    else ActionOf(PaymentService.RefundPayment(request, create))
  }

  /** A refund for a given intent is never refused for its amount or its reason. */
  lemma RefundChecksOnlyIntent(request: CreateRefundRequest, amount: Option<Int64>, reason: NString,
                               create: RefundCreateOptions -> Reply<Refund>)
    requires !IsNullOrEmpty(request.paymentIntentId)
    ensures !RefundPayment(request.(amount := amount, reason := reason), create).BadRequest?
  {
  }
}
