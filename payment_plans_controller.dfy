/**
  The payment-plan endpoint: a chain of request checks, the first failing
  one answered with 400, and otherwise a call of the plan service whose
  exceptions are all answered with 500.
 */
module PaymentPlansController {
  import opened Wrappers
  import opened DotNet
  import opened Gateway
  import opened Models
  import opened PaymentPlanService

  const TotalRequired := "Total amount must be greater than 0"
  const InstallmentsRequired := "Number of installments must be greater than 0"
  const CustomerRequired := "Customer ID is required"
  const PaymentMethodRequired := "Payment method ID is required"

  /**
    The checks of `CreatePaymentPlan`, in their order: the message of the
    first one that fails, or None when the request passes them all.
   */
  function ValidatePlanRequest(request: CreatePaymentPlanRequest): (r: Option<string>)
    ensures r.None? <==>
      request.totalAmount > 0 && request.numberOfInstallments > 0 &&
      !IsNullOrEmpty(request.customerId) && !IsNullOrEmpty(request.paymentMethodId)
    ensures request.totalAmount <= 0 ==> r == Some(TotalRequired)
    ensures request.totalAmount > 0 && request.numberOfInstallments <= 0 ==> r == Some(InstallmentsRequired)
    ensures request.totalAmount > 0 && request.numberOfInstallments > 0 && IsNullOrEmpty(request.customerId) ==>
      r == Some(CustomerRequired)
    ensures (request.totalAmount > 0 && request.numberOfInstallments > 0 && !IsNullOrEmpty(request.customerId) &&
             IsNullOrEmpty(request.paymentMethodId)) ==> r == Some(PaymentMethodRequired)
  {
    if request.totalAmount <= 0 then Some(TotalRequired)
    else if request.numberOfInstallments <= 0 then Some(InstallmentsRequired)
    else if IsNullOrEmpty(request.customerId) then Some(CustomerRequired)
    else if IsNullOrEmpty(request.paymentMethodId) then Some(PaymentMethodRequired)
    else None
  }

  /**
    For a request that passes the checks the plan service can fail only
    at the processor: no division by zero or overflow is possible, every
    installment is requested when it succeeds, and a failure is the
    processor's rejection of the last request it was sent, rewrapped, every
    earlier request having been answered.
   */
  lemma ValidatedPlanFailsOnlyAtProcessor(request: CreatePaymentPlanRequest, guid: string,
                                          respond: seq<IntentCall> -> Reply<PaymentIntent>, hist: seq<IntentCall>)
    requires ValidatePlanRequest(request).None?
    ensures var run := Plan(request, guid, respond, hist);
      AnsweredAfter(respond, run.calls, |hist|) &&
      (run.outcome.Err? ==>
         respond(run.calls).Rejected? &&
         run.outcome.error == ApplicationError(PlanErrorPrefix + respond(run.calls).message))
    ensures var run := Plan(request, guid, respond, hist);
      run.outcome.Ok? ==>
        run.outcome.value.numberOfInstallments == request.numberOfInstallments &&
        |run.outcome.value.installments| == request.numberOfInstallments &&
        run.outcome.value.installmentAmount == BaseAmount(request.totalAmount, request.numberOfInstallments)
  {
    PlanRequests(request, guid, respond, hist);
    if Plan(request, guid, respond, hist).outcome.Ok? {
      PlanRecords(request, guid, respond, hist);
    }
  }

  /**
    `CreatePaymentPlan`. The plan identifier's text `guid` is an input. A
    request that fails a check is answered with 400 and the processor is
    sent nothing; otherwise the answer is the plan service's outcome.
   */
  method CreatePaymentPlan(request: CreatePaymentPlanRequest, guid: string, gateway: IntentService)
    returns (result: ActionResult<PaymentPlanResponse>)
    modifies gateway
    ensures ValidatePlanRequest(request).Some? ==>
      result == BadRequest(ValidatePlanRequest(request).value) && gateway.calls == old(gateway.calls)
    ensures ValidatePlanRequest(request).None? ==>
      var run := Plan(request, guid, gateway.respond, old(gateway.calls));
      gateway.calls == run.calls && result == ActionOf(run.outcome)
  {
    var problem := ValidatePlanRequest(request);
    if problem.Some? {
      return BadRequest(problem.value);
    }
    var response := CreatePaymentPlanAsync(request, guid, gateway);
    result := ActionOf(response);
  }
}
