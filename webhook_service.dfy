/**
  The webhook service: it has the processor verify and decode an event,
  dispatches on the event's type to a handler, and answers with a
  `WebhookResponse`. The handlers only log what they read, so the model
  records what each one reads (and the exception it throws, if any) instead
  of the log.
 */
module WebhookService {
  import opened Wrappers
  import opened DotNet
  import opened Gateway
  import opened Models
  import PaymentPlanService

  // ---------------------------------------------------------------------------
  // Dispatch

  /** The three handlers the service has. */
  datatype Handler = IntentSucceeded | IntentFailed | ChargeRefunded

  /** The event type each handler is registered for. */
  function EventTypeOf(h: Handler): string {
    match h
    case IntentSucceeded => "payment_intent.succeeded"
    case IntentFailed => "payment_intent.payment_failed"
    case ChargeRefunded => "charge.refunded"
  }

  /**
    The `switch` on the event type: the handler registered for the type, if
    any. Each registered type selects its own handler, and a type no handler
    is registered for selects none.
   */
  function HandlerFor(eventType: string): (r: Option<Handler>)
    ensures r.Some? ==> EventTypeOf(r.value) == eventType
    ensures r.None? <==> forall h: Handler :: EventTypeOf(h) != eventType
  {
    if eventType == "payment_intent.succeeded" then Some(IntentSucceeded)
    else if eventType == "payment_intent.payment_failed" then Some(IntentFailed)
    else if eventType == "charge.refunded" then Some(ChargeRefunded)
    else None
  }

  // ---------------------------------------------------------------------------
  // Plan correlation

  /** What an intent's metadata says about the payment plan it belongs to. */
  datatype PlanCorrelation =
    | NotPlanRelated
    | PlanInstallment(planId: string, installmentNumber: Int32, totalInstallments: Int32)

  /**
    The metadata lookup both intent handlers make: without a "plan_id" the
    intent is not part of a plan; with one, the installment number and the
    count are read with the indexer and parsed with `int.Parse`, in that
    order, and the first failure is thrown.
   */
  function ExtractPlanCorrelation(metadata: map<string, string>): (r: Result<PlanCorrelation, Exception>)
    ensures "plan_id" !in metadata <==> r == Ok(NotPlanRelated)
    ensures r.Ok? && r.value.PlanInstallment? ==> r.value.planId == metadata["plan_id"]
    ensures r.Err? ==> r.error.kind in {KeyNotFoundException, FormatException, OverflowException}
  {
    if "plan_id" !in metadata then Ok(NotPlanRelated)
    else
      var planId := metadata["plan_id"];
      match Lookup(metadata, "installment_number")
      case Err(e) => Err(e)
      case Ok(numberText) =>
        match ParseInt32(numberText)
        case Err(e) => Err(e)
        case Ok(number) =>
          match Lookup(metadata, "total_installments")
          case Err(e) => Err(e)
          case Ok(totalText) =>
            match ParseInt32(totalText)
            case Err(e) => Err(e)
            case Ok(total) => Ok(PlanInstallment(planId, number, total))
  }

  /** A plan-related intent's correlation is exactly its parsed metadata. */
  lemma CorrelationOfPlanMetadata(metadata: map<string, string>)
    requires "plan_id" in metadata
    ensures var r := ExtractPlanCorrelation(metadata);
      r.Ok? <==>
        ("installment_number" in metadata && ParseInt32(metadata["installment_number"]).Ok? &&
         "total_installments" in metadata && ParseInt32(metadata["total_installments"]).Ok?)
    ensures var r := ExtractPlanCorrelation(metadata);
      r.Ok? ==>
        r.value == PlanInstallment(metadata["plan_id"],
                                   ParseInt32(metadata["installment_number"]).value,
                                   ParseInt32(metadata["total_installments"]).value)
    ensures "installment_number" !in metadata ==>
      ExtractPlanCorrelation(metadata) == Err(KeyNotFound("installment_number"))
  {
  }

  /**
    The metadata plan creation attaches to installment i (0-based) of n
    decodes to installment i + 1 of n of the same plan: `ToString` as written
    and `int.Parse` as read agree.
   */
  lemma PlanMetadataRoundTrip(planId: string, i: int, n: int)
    requires 0 <= i < n <= MaxInt32
    ensures ExtractPlanCorrelation(PaymentPlanService.InstallmentMetadata(planId, i, n)) ==
      Ok(PlanInstallment(planId, i + 1, n))
  {
    PaymentPlanService.InstallmentMetadataEntries(planId, i, n);
    ParseIntToString(i + 1);
    ParseIntToString(n);
  }

  // ---------------------------------------------------------------------------
  // Handlers

  /** What a handler read from the event it handled. */
  datatype Observation =
    | IntentObserved(handler: Handler, intentId: NString, correlation: PlanCorrelation)
    | RefundObserved(chargeId: NString)

  /**
    `HandlePaymentIntentSucceeded` and `HandlePaymentIntentFailed`, which
    differ only in the level and wording of their logs: the intent's id is
    read first (a null intent throws), then the plan correlation.
   */
  function HandleIntent(handler: Handler, intent: Option<PaymentIntent>): (r: Result<Observation, Exception>)
    requires handler != ChargeRefunded
    ensures intent.None? ==> r == Err(NullReference)
    ensures intent.Some? ==> (r.Ok? <==> ExtractPlanCorrelation(intent.value.metadata).Ok?)
    ensures r.Ok? ==>
      (r.value.IntentObserved? && r.value.handler == handler &&
       r.value.intentId == intent.value.id &&
       Ok(r.value.correlation) == ExtractPlanCorrelation(intent.value.metadata))
    ensures r.Err? ==> r.error.kind != StripeException
  {
    if intent.None? then Err(NullReference)
    else
      match ExtractPlanCorrelation(intent.value.metadata)
      case Err(e) => Err(e)
      case Ok(c) => Ok(IntentObserved(handler, intent.value.id, c))
  }

  /** `HandleChargeRefunded`: reads the charge's id, and throws for a null charge. */
  function HandleChargeRefunded(charge: Option<Charge>): (r: Result<Observation, Exception>)
    ensures charge.None? <==> r == Err(NullReference)
    ensures charge.Some? ==> r == Ok(RefundObserved(charge.value.id))
  {
    if charge.None? then Err(NullReference) else Ok(RefundObserved(charge.value.id))
  }

  /** `data.Object as PaymentIntent`: null unless the object is an intent. */
  function AsIntent(o: EventObject): Option<PaymentIntent> {
    if o.IntentObject? then Some(o.intent) else None
  }

  /** `data.Object as Charge`: null unless the object is a charge. */
  function AsCharge(o: EventObject): Option<Charge> {
    if o.ChargeObject? then Some(o.charge) else None
  }

  /**
    The `switch` with its handler call: nothing is observed for a type no
    handler is registered for; otherwise the selected handler runs on the
    event's object cast to the type it expects, and either observes the
    event or throws (a null object, or an intent's unreadable plan
    metadata).
   */
  function Dispatch(ev: Event): (r: Result<Option<Observation>, Exception>)
    ensures HandlerFor(ev.eventType).None? ==> r == Ok(None)
    ensures r.Ok? && r.value.Some? ==> HandlerFor(ev.eventType).Some?
    ensures r.Ok? && r.value.Some? && r.value.value.IntentObserved? ==>
      r.value.value.handler == HandlerFor(ev.eventType).value
    ensures HandlerFor(ev.eventType).Some? && r.Ok? ==> r.value.Some?
    ensures HandlerFor(ev.eventType) == Some(ChargeRefunded) ==>
      r == if ev.data.ChargeObject? then Ok(Some(RefundObserved(ev.data.charge.id))) else Err(NullReference)
    ensures HandlerFor(ev.eventType).Some? && HandlerFor(ev.eventType) != Some(ChargeRefunded) ==>
      (!ev.data.IntentObject? ==> r == Err(NullReference)) &&
      (ev.data.IntentObject? ==>
         var correlation := ExtractPlanCorrelation(ev.data.intent.metadata);
         (r.Ok? <==> correlation.Ok?) &&
         (r.Ok? ==> r.value == Some(IntentObserved(HandlerFor(ev.eventType).value, ev.data.intent.id, correlation.value))))
    ensures r.Err? ==> r.error.kind != StripeException
  {
    match HandlerFor(ev.eventType)
    case None => Ok(None)
    case Some(h) =>
      var handled :=
        if h == ChargeRefunded then HandleChargeRefunded(AsCharge(ev.data))
        else HandleIntent(h, AsIntent(ev.data));
      match handled
      case Err(e) => Err(e)
      case Ok(o) => Ok(Some(o))
  }

  // ---------------------------------------------------------------------------
  // The service

  const WebhookErrorPrefix := "Error processing webhook: "
  const WebhookSuccessMessage := "Webhook processed successfully"

  /** The response for a processor exception caught by the service. */
  function FailureResponse(e: Exception): WebhookResponse {
    WebhookResponse(false, WebhookErrorPrefix + e.message, None)
  }

  /** `catch (StripeException ex)`: only the processor's exceptions become a failure response. */
  function CatchStripe(e: Exception): (r: Result<WebhookResponse, Exception>)
    ensures e.kind == StripeException <==> r == Ok(FailureResponse(e))
    ensures e.kind != StripeException <==> r == Err(e)
  {
    if e.kind == StripeException then Ok(FailureResponse(e)) else Err(e)
  }

  /**
    `ProcessWebhookAsync`. `construct` stands for `EventUtility.ConstructEvent`,
    which checks the signature of the body against the endpoint secret and
    decodes the event, or throws. The result is the response, or the
    exception that escapes the service.
   */
  function ProcessWebhook(body: string, signature: string, secret: string,
                          construct: (string, string, string) -> Result<Event, Exception>)
    : (r: Result<WebhookResponse, Exception>)
    ensures var c := construct(body, signature, secret);
      c.Err? ==> r == CatchStripe(c.error)
    ensures var c := construct(body, signature, secret);
      r.Ok? && r.value.success <==> c.Ok? && Dispatch(c.value).Ok?
    ensures var c := construct(body, signature, secret);
      r.Ok? && r.value.success ==>
        r.value == WebhookResponse(true, WebhookSuccessMessage, Some(c.value.eventType))
    ensures r.Ok? && !r.value.success ==> r.value.eventType.None?
    ensures var c := construct(body, signature, secret);
      c.Ok? && Dispatch(c.value).Err? ==> r == Err(Dispatch(c.value).error)
  {
    match construct(body, signature, secret)
    case Err(e) => CatchStripe(e)
    case Ok(ev) =>
      match Dispatch(ev)
      case Err(e) => CatchStripe(e)
      case Ok(_) => Ok(WebhookResponse(true, WebhookSuccessMessage, Some(ev.eventType)))
  }

  // ---------------------------------------------------------------------------
  // Properties of the service

  /** An event of a type no handler is registered for is still acknowledged, with its type. */
  lemma UnrecognisedEventAcknowledged(body: string, signature: string, secret: string,
                                      construct: (string, string, string) -> Result<Event, Exception>)
    requires construct(body, signature, secret).Ok?
    requires forall h: Handler :: EventTypeOf(h) != construct(body, signature, secret).value.eventType
    ensures ProcessWebhook(body, signature, secret, construct) ==
      Ok(WebhookResponse(true, WebhookSuccessMessage, Some(construct(body, signature, secret).value.eventType)))
  {
  }

  /** A processor exception from verification is answered with failure and no event type, and no handler runs. */
  lemma VerificationFailureAnswered(body: string, signature: string, secret: string,
                                    construct: (string, string, string) -> Result<Event, Exception>)
    requires construct(body, signature, secret).Err?
    requires construct(body, signature, secret).error.kind == StripeException
    ensures var e := construct(body, signature, secret).error;
      ProcessWebhook(body, signature, secret, construct) ==
        Ok(WebhookResponse(false, WebhookErrorPrefix + e.message, None))
  {
  }

  /**
    An intent event whose metadata names a plan but lacks a readable count
    is not answered: the lookup or parse exception is not the processor's,
    so it escapes the service.
   */
  lemma BadPlanMetadataEscapes(body: string, signature: string, secret: string,
                               construct: (string, string, string) -> Result<Event, Exception>)
    requires construct(body, signature, secret).Ok?
    requires var ev := construct(body, signature, secret).value;
      ev.eventType in {"payment_intent.succeeded", "payment_intent.payment_failed"} &&
      ev.data.IntentObject? && ExtractPlanCorrelation(ev.data.intent.metadata).Err?
    ensures var ev := construct(body, signature, secret).value;
      var e := ExtractPlanCorrelation(ev.data.intent.metadata).error;
      ProcessWebhook(body, signature, secret, construct) == Err(e) &&
      e.kind != StripeException
  {
  }

  /** An event whose object is not of the type its handler expects makes the handler throw, and the exception escapes. */
  lemma MistypedObjectEscapes(body: string, signature: string, secret: string,
                              construct: (string, string, string) -> Result<Event, Exception>)
    requires construct(body, signature, secret).Ok?
    requires var ev := construct(body, signature, secret).value;
      HandlerFor(ev.eventType).Some? &&
      (if HandlerFor(ev.eventType).value == ChargeRefunded then !ev.data.ChargeObject? else !ev.data.IntentObject?)
    ensures ProcessWebhook(body, signature, secret, construct) == Err(NullReference)
  {
  }

  /**
    An intent event about an installment this service's plans created is
    acknowledged, and its handler reads back the installment's plan, its
    1-based number and the plan's count.
   */
  lemma PlanInstallmentEventAcknowledged(ev: Event, planId: string, i: int, n: int)
    requires ev.eventType in {"payment_intent.succeeded", "payment_intent.payment_failed"}
    requires ev.data.IntentObject?
    requires ev.data.intent.metadata == PaymentPlanService.InstallmentMetadata(planId, i, n)
    requires 0 <= i < n <= MaxInt32
    ensures Dispatch(ev) ==
      Ok(Some(IntentObserved(HandlerFor(ev.eventType).value, ev.data.intent.id, PlanInstallment(planId, i + 1, n))))
  {
    var h := HandlerFor(ev.eventType).value;
    var c := PlanInstallment(planId, i + 1, n);
    PlanMetadataRoundTrip(planId, i, n);
    assert ExtractPlanCorrelation(ev.data.intent.metadata) == Ok(c);
    assert HandleIntent(h, AsIntent(ev.data)) == Ok(IntentObserved(h, ev.data.intent.id, c));
  }
}
