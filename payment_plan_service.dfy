/**
  `PaymentPlanService.CreatePaymentPlanAsync`: split a total into installments
  and create one payment intent per installment, in ascending order,
  confirming only the first.

  The functions `Plan` and `RunFrom` say, as values, which requests the
  service sends to the payment-intent service and what it returns, for any
  behaviour of the processor; the imperative `CreatePaymentPlanAsync` is
  proved to do exactly that, and the lemmas state what the plan promises.
 */
module PaymentPlanService {
  import opened Wrappers
  import opened DotNet
  import opened Gateway
  import opened Models

  // ---------------------------------------------------------------------------
  // Amount split

  /** The plan identifier built from the text of a fresh GUID ("N" format). */
  function PlanId(guid: string): (id: string)
    ensures |id| == |guid| + 5 && id[..5] == "plan_" && id[5..] == guid
  {
    "plan_" + guid
  }

  lemma MulAtLeast(q: nat, b: nat, c: nat)
    requires b >= c
    ensures q * b >= q * c
  {
    assert q * b == q * c + q * (b - c);
  }

  lemma QuotientBound(q: nat, a: nat, b: nat)
    requires b >= 1 && q * b <= a
    ensures q <= a
    ensures b >= 2 ==> 2 * q <= a
  {
    MulAtLeast(q, b, 1);
    if b >= 2 {
      MulAtLeast(q, b, 2);
    }
  }

  /** `TotalAmount / NumberOfInstallments`, the amount of every installment but the last. */
  function BaseAmount(total: Int64, n: Int32): (b: Int64)
    requires n != 0 && !(total == MinInt64 && n == -1)
    ensures n > 0 && total >= 0 ==> 0 <= b && b * n <= total < b * n + n
    ensures n > 0 && total < 0 ==> b <= 0 && total <= b * n < total + n
  {
    TruncDivTruncates(total, n);
    QuotientBound(Abs(TruncDiv(total, n)), Abs(total), Abs(n));
    TruncDiv(total, n)
  }

  /** What is left over once every installment has the base amount. */
  lemma RemainderBounds(total: Int64, n: Int32)
    requires n > 0
    ensures var b := BaseAmount(total, n);
      var last := b + (total - b * n);
      (total >= 0 ==> 0 <= b <= last <= total && last - b < n) &&
      (total < 0 ==> total <= last <= b <= 0)
  {
    var b := BaseAmount(total, n);
    var m: nat := n - 1;
    assert b * n == b * m + b;
    if total >= 0 {
      var bn: nat := b;
      MulAtLeast(bn, m, 0);
    } else {
      var nb: nat := -b;
      MulAtLeast(nb, m, 0);
      assert b * m == -(nb * m);
    }
  }

  /**
    The amount of installment i (0-based): the base amount, plus, for the
    last installment, the remainder of the division.
   */
  function InstallmentAmount(total: Int64, n: Int32, i: int): Int64
    requires n > 0 && 0 <= i < n
  {
    var b := BaseAmount(total, n);
    RemainderBounds(total, n);
    if i == n - 1 then b + (total - b * n) else b
  }

  /** The installment amounts of a plan, in order. */
  function Split(total: Int64, n: Int32): (s: seq<int>)
    requires n > 0
    ensures |s| == n
  {
    seq(n, i requires 0 <= i < n => InstallmentAmount(total, n, i) as int)
  }

  function Sum(s: seq<int>): int
    decreases |s|
  {
    if s == [] then 0 else Sum(s[..|s| - 1]) + s[|s| - 1]
  }

  lemma {:induction false} SumOfConstant(s: seq<int>, c: int)
    requires forall i :: 0 <= i < |s| ==> s[i] == c
    ensures Sum(s) == |s| * c
    decreases |s|
  {
    if s != [] {
      SumOfConstant(s[..|s| - 1], c);
      assert |s| * c == (|s| - 1) * c + c;
    }
  }

  /** Every installment but the last has the base amount, and together they make up the total exactly. */
  lemma {:induction false} SplitSumsToTotal(total: Int64, n: Int32)
    requires n > 0
    ensures forall i :: 0 <= i < n - 1 ==> Split(total, n)[i] == BaseAmount(total, n)
    ensures var b := BaseAmount(total, n); Split(total, n)[n - 1] == b + (total - b * n)
    ensures Sum(Split(total, n)) == total
  {
    var s := Split(total, n);
    var b := BaseAmount(total, n);
    SumOfConstant(s[..n - 1], b);
    assert s[..|s| - 1] == s[..n - 1];
    assert (n - 1) * b + b == n * b;
  }

  /** For a positive total no installment is negative, and the last exceeds the others by less than n. */
  lemma SplitBounds(total: Int64, n: Int32)
    requires total > 0 && n > 0
    ensures forall i :: 0 <= i < n ==> Split(total, n)[i] >= 0
    ensures var b := BaseAmount(total, n); b <= Split(total, n)[n - 1] < b + n
  {
    RemainderBounds(total, n);
  }

  lemma SplitExamples()
    ensures Split(100, 3) == [33, 33, 34]
    ensures Split(10, 4) == [2, 2, 2, 4]
    ensures Split(7, 1) == [7]
  {
    assert BaseAmount(100, 3) == 33;
    assert BaseAmount(10, 4) == 2;
    assert BaseAmount(7, 1) == 7;
  }

  // ---------------------------------------------------------------------------
  // Per-installment request

  /** The correlation metadata attached to installment i (0-based) of n. */
  function InstallmentMetadata(planId: string, i: int, n: int): map<string, string> {
    DictionaryOf([("plan_id", planId),
                  ("installment_number", IntToString(i + 1)),
                  ("total_installments", IntToString(n))])
  }

  /** An installment's metadata holds exactly the plan id and the installment's 1-based number and count, as decimal text. */
  lemma InstallmentMetadataEntries(planId: string, i: int, n: int)
    ensures var m := InstallmentMetadata(planId, i, n);
      m.Keys == {"plan_id", "installment_number", "total_installments"} &&
      m["plan_id"] == planId &&
      m["installment_number"] == IntToString(i + 1) &&
      m["total_installments"] == IntToString(n)
  {
    var pairs := [("plan_id", planId),
                  ("installment_number", IntToString(i + 1)),
                  ("total_installments", IntToString(n))];
    assert pairs[..2][..1][..0] == [];
    assert DictionaryOf(pairs[..2][..1]) == map["plan_id" := planId];
    assert DictionaryOf(pairs[..2]) == map["plan_id" := planId, "installment_number" := IntToString(i + 1)];
  }

  /** The description of installment i (0-based) of n; a null description renders as empty. */
  function InstallmentDescription(description: NString, i: int, n: int): string {
    Concat([OrEmpty(description), " - Installment ", IntToString(i + 1), " of ", IntToString(n)])
  }

  /** The description reads "<description> - Installment <i + 1> of <n>". */
  lemma InstallmentDescriptionText(description: NString, i: int, n: int)
    ensures InstallmentDescription(description, i, n) ==
      OrEmpty(description) + " - Installment " + IntToString(i + 1) + " of " + IntToString(n)
  {
    var parts := [OrEmpty(description), " - Installment ", IntToString(i + 1), " of ", IntToString(n)];
    assert Concat(parts[4..]) == parts[4] by { assert parts[4..][1..] == []; }
    assert Concat(parts[3..]) == parts[3] + parts[4] by { assert parts[3..][1..] == parts[4..]; }
    assert Concat(parts[2..]) == parts[2] + parts[3] + parts[4] by { assert parts[2..][1..] == parts[3..]; }
    assert Concat(parts[1..]) == parts[1] + parts[2] + parts[3] + parts[4] by { assert parts[1..][1..] == parts[2..]; }
  }

  /**
    The options installment i is created with: the first installment carries
    the caller's payment method and is captured automatically; the others have
    no payment method and manual capture.
   */
  function InstallmentOptions(request: CreatePaymentPlanRequest, planId: string, i: int): IntentCreateOptions
    requires 0 <= i < request.numberOfInstallments
  {
    var n := request.numberOfInstallments;
    var isFirstInstallment := i == 0;
    IntentCreateOptions(
      amount := InstallmentAmount(request.totalAmount, n, i),
      currency := request.currency,
      customer := request.customerId,
      paymentMethod := if isFirstInstallment then request.paymentMethodId else None,
      description := Some(InstallmentDescription(request.description, i, n)),
      metadata := InstallmentMetadata(planId, i, n),
      captureMethod := Some(if isFirstInstallment then "automatic" else "manual"),
      setupFutureUsage := Some("off_session"))
  }

  /** The options of every installment of the plan, in order (none when the count is not positive). */
  function PlanOptions(request: CreatePaymentPlanRequest, planId: string): (os: seq<IntentCreateOptions>)
    ensures |os| == if request.numberOfInstallments > 0 then request.numberOfInstallments else 0
  {
    var n := request.numberOfInstallments;
    if n <= 0 then [] else seq(n, k requires 0 <= k < n => InstallmentOptions(request, planId, k))
  }

  /** Installment i is created with the options worked out for it. */
  lemma PlanOptionsAt(request: CreatePaymentPlanRequest, planId: string, i: int)
    requires 0 <= i < request.numberOfInstallments
    ensures PlanOptions(request, planId)[i] == InstallmentOptions(request, planId, i)
  {
  }

  /**
    The requests made for installment i after the requests `sent`: its
    creation with `options[i]` and, for the first installment only, a
    confirmation with the caller's payment method when the created intent has
    not already succeeded.
   */
  function InstallmentCalls(options: seq<IntentCreateOptions>, paymentMethodId: NString,
                            respond: seq<IntentCall> -> Reply<PaymentIntent>, sent: seq<IntentCall>, i: int): seq<IntentCall>
    requires 0 <= i < |options|
  {
    var create := CreateIntent(options[i]);
    var created := respond(sent + [create]);
    if i == 0 && created.Replied? && created.value.status != Some("succeeded") then
      [create, ConfirmIntent(created.value.id, IntentConfirmOptions(paymentMethodId))]
    else
      [create]
  }

  // ---------------------------------------------------------------------------
  // The whole run, as a value

  /**
    Every request the payment-intent service has received once a run ends,
    and the recorded installments or the processor's rejection message.
   */
  datatype Steps = Steps(calls: seq<IntentCall>, outcome: Result<seq<PaymentIntentResponse>, string>)

  /**
    Installments i .. |options|-1, once the payment-intent service has
    received the requests `sent` and the installments `done` are recorded.
   */
  function RunFrom(options: seq<IntentCreateOptions>, paymentMethodId: NString,
                   respond: seq<IntentCall> -> Reply<PaymentIntent>, sent: seq<IntentCall>,
                   i: nat, done: seq<PaymentIntentResponse>): Steps
    decreases |options| - i
  {
    if i >= |options| then Steps(sent, Ok(done))
    else
      var sent' := sent + InstallmentCalls(options, paymentMethodId, respond, sent, i);
      var reply := respond(sent');
      if reply.Rejected? then Steps(sent', Err(reply.message))
      else RunFrom(options, paymentMethodId, respond, sent', i + 1, done + [IntentResponseOf(reply.value)])
  }

  /** Every request received once the plan's creation ends, and what it returns or throws. */
  datatype PlanRun = PlanRun(calls: seq<IntentCall>, outcome: Result<PaymentPlanResponse, Exception>)

  const PlanErrorPrefix := "Error creating payment plan: "

  /**
    What creating the plan does when the processor answers as `respond`
    says and the payment-intent service has already received `hist`.
   */
  function Plan(request: CreatePaymentPlanRequest, guid: string,
                respond: seq<IntentCall> -> Reply<PaymentIntent>, hist: seq<IntentCall>): PlanRun
  {
    var n := request.numberOfInstallments;
    var total := request.totalAmount;
    if n == 0 then PlanRun(hist, Err(DivideByZero))
    else if total == MinInt64 && n == -1 then PlanRun(hist, Err(ArithmeticOverflow))
    else
      var planId := PlanId(guid);
      var steps := RunFrom(PlanOptions(request, planId), request.paymentMethodId, respond, hist, 0, []);
      PlanRun(steps.calls,
              match steps.outcome
              case Ok(installments) => Ok(PaymentPlanResponse(planId, n, BaseAmount(total, n), installments))
              case Err(message) => Err(ApplicationError(PlanErrorPrefix + message)))
  }

  // ---------------------------------------------------------------------------
  // What a run does

  /** The creation requests for the given options, in order. */
  function Creations(os: seq<IntentCreateOptions>): (cs: seq<IntentCall>)
    ensures |cs| == |os|
    decreases |os|
  {
    if os == [] then [] else [CreateIntent(os[0])] + Creations(os[1..])
  }

  lemma {:induction false} CreationsAt(os: seq<IntentCreateOptions>, k: int)
    requires 0 <= k < |os|
    ensures Creations(os)[k] == CreateIntent(os[k])
    decreases k
  {
    if k > 0 {
      CreationsAt(os[1..], k - 1);
    }
  }

  /**
    Every request in `calls` after the first `lo`, except the last, was
    answered: the processor's rejection of any of them would have ended the
    run there.
   */
  ghost predicate AnsweredAfter(respond: seq<IntentCall> -> Reply<PaymentIntent>, calls: seq<IntentCall>, lo: nat) {
    forall j :: lo < j < |calls| ==> respond(calls[..j]).Replied?
  }

  /**
    From installment i >= 1 on, each installment is one creation request
    with that installment's options, in order; the run stops right after the
    first rejected request, with its message, and otherwise goes on to the
    last installment.
   */
  lemma {:induction false} LaterCalls(options: seq<IntentCreateOptions>, paymentMethodId: NString,
                                      respond: seq<IntentCall> -> Reply<PaymentIntent>, sent: seq<IntentCall>,
                                      i: nat, done: seq<PaymentIntentResponse>)
    requires 1 <= i <= |options|
    ensures var run := RunFrom(options, paymentMethodId, respond, sent, i, done);
      var m := |run.calls| - |sent|;
      |sent| <= |run.calls| && i + m <= |options| &&
      run.calls == sent + Creations(options[i..i + m]) &&
      (run.outcome.Ok? ==> i + m == |options|) &&
      (run.outcome.Err? ==> m >= 1 && respond(run.calls).Rejected? && run.outcome.error == respond(run.calls).message)
    decreases |options| - i
  {
    if i < |options| {
      var create := CreateIntent(options[i]);
      var sent' := sent + [create];
      assert InstallmentCalls(options, paymentMethodId, respond, sent, i) == [create];
      var reply := respond(sent');
      if reply.Replied? {
        var done' := done + [IntentResponseOf(reply.value)];
        var run := RunFrom(options, paymentMethodId, respond, sent', i + 1, done');
        assert RunFrom(options, paymentMethodId, respond, sent, i, done) == run;
        LaterCalls(options, paymentMethodId, respond, sent', i + 1, done');
        var m := |run.calls| - |sent|;
        var rest := Creations(options[i + 1..i + m]);
        assert run.calls == sent' + rest;
        assert Creations(options[i..i + m]) == [create] + rest by {
          assert options[i..i + m][1..] == options[i + 1..i + m];
        }
        assert sent' + rest == sent + ([create] + rest);
      } else {
        assert Creations(options[i..i + 1]) == [create];
      }
    }
  }

  /** `record` is what the installment list holds for the processor's answer to `calls`, which accepted it. */
  ghost predicate RecordsAnswer(respond: seq<IntentCall> -> Reply<PaymentIntent>, calls: seq<IntentCall>,
                                record: PaymentIntentResponse)
  {
    respond(calls).Replied? && record == IntentResponseOf(respond(calls).value)
  }

  /**
    A run from installment i >= 1 that completes records, after `done`, one
    response per later installment, built from the processor's answer to
    that installment's creation request.
   */
  lemma {:induction false} LaterRecords(options: seq<IntentCreateOptions>, paymentMethodId: NString,
                                        respond: seq<IntentCall> -> Reply<PaymentIntent>, sent: seq<IntentCall>,
                                        i: nat, done: seq<PaymentIntentResponse>)
    requires 1 <= i <= |options|
    requires RunFrom(options, paymentMethodId, respond, sent, i, done).outcome.Ok?
    ensures var run := RunFrom(options, paymentMethodId, respond, sent, i, done);
      var recorded := run.outcome.value;
      |run.calls| == |sent| + |options| - i && |recorded| == |done| + |options| - i &&
      recorded[..|done|] == done &&
      forall k :: |done| <= k < |recorded| ==> RecordsAnswer(respond, run.calls[..|sent| + (k - |done|) + 1], recorded[k])
    decreases |options| - i
  {
    LaterCalls(options, paymentMethodId, respond, sent, i, done);
    if i < |options| {
      var create := CreateIntent(options[i]);
      var sent' := sent + [create];
      assert InstallmentCalls(options, paymentMethodId, respond, sent, i) == [create];
      var reply := respond(sent');
      var done' := done + [IntentResponseOf(reply.value)];
      var run := RunFrom(options, paymentMethodId, respond, sent', i + 1, done');
      assert RunFrom(options, paymentMethodId, respond, sent, i, done) == run;
      LaterCalls(options, paymentMethodId, respond, sent', i + 1, done');
      LaterRecords(options, paymentMethodId, respond, sent', i + 1, done');
      var recorded := run.outcome.value;
      assert recorded[..|done|] == recorded[..|done'|][..|done|];
      assert run.calls[..|sent'|] == sent';
      forall k | |done| <= k < |recorded|
        ensures RecordsAnswer(respond, run.calls[..|sent| + (k - |done|) + 1], recorded[k])
      {
        if k == |done| {
          assert recorded[k] == recorded[..|done'|][k];
          assert run.calls[..|sent| + 1] == sent';
        } else {
          assert RecordsAnswer(respond, run.calls[..|sent'| + (k - |done'|) + 1], recorded[k]);
          assert |sent| + (k - |done|) + 1 == |sent'| + (k - |done'|) + 1;
        }
      }
    }
  }

  /** Whether the first installment's intent, as created after `hist`, is confirmed. */
  ghost predicate ConfirmsFirst(options: seq<IntentCreateOptions>, respond: seq<IntentCall> -> Reply<PaymentIntent>,
                                hist: seq<IntentCall>)
    requires |options| > 0
  {
    var first := respond(hist + [CreateIntent(options[0])]);
    first.Replied? && first.value.status != Some("succeeded")
  }

  /**
    The requests a whole run sends after `hist`, in order: the first
    installment's creation; its confirmation with the caller's payment
    method exactly when the created intent has not succeeded; then one
    creation per later installment, up to the first rejection. It completes
    only after every installment's creation, and a rejection ends it with the
    processor's message.
   */
  lemma RunCalls(options: seq<IntentCreateOptions>, paymentMethodId: NString,
                 respond: seq<IntentCall> -> Reply<PaymentIntent>, hist: seq<IntentCall>)
    requires |options| > 0
    ensures var run := RunFrom(options, paymentMethodId, respond, hist, 0, []);
      |hist| <= |run.calls| && run.calls[..|hist|] == hist
    ensures var run := RunFrom(options, paymentMethodId, respond, hist, 0, []);
      var c := if ConfirmsFirst(options, respond, hist) then 1 else 0;
      var sent := run.calls[|hist|..];
      var m := |sent| - c;
      1 <= m <= |options| &&
      sent[0] == CreateIntent(options[0]) &&
      (c == 1 ==> sent[1] == ConfirmIntent(respond(hist + [CreateIntent(options[0])]).value.id,
                                             IntentConfirmOptions(paymentMethodId))) &&
      sent[c + 1..] == Creations(options[1..m]) &&
      (run.outcome.Ok? ==> m == |options|) &&
      (run.outcome.Err? ==> respond(run.calls).Rejected? && run.outcome.error == respond(run.calls).message)
  {
    var cs := InstallmentCalls(options, paymentMethodId, respond, hist, 0);
    var sent1 := hist + cs;
    var reply := respond(sent1);
    var whole := RunFrom(options, paymentMethodId, respond, hist, 0, []);
    assert sent1[..|hist|] == hist;
    assert sent1[|hist|..] == cs;
    if reply.Replied? {
      var done := [IntentResponseOf(reply.value)];
      assert [] + done == done;
      var rest := RunFrom(options, paymentMethodId, respond, sent1, 1, done);
      assert whole == rest;
      LaterCalls(options, paymentMethodId, respond, sent1, 1, done);
      assert rest.calls[..|sent1|] == sent1;
      assert rest.calls[..|hist|] == hist;
      assert rest.calls[|hist|..][..|cs|] == cs;
      assert rest.calls[|hist|..][|cs|..] == rest.calls[|sent1|..];
    } else {
      assert options[1..1] == [];
    }
  }

  /**
    A run from installment i >= 1 keeps the requests sent before it, and
    every request it sends, except the last, was answered.
   */
  lemma {:induction false} LaterAnswered(options: seq<IntentCreateOptions>, paymentMethodId: NString,
                                         respond: seq<IntentCall> -> Reply<PaymentIntent>, sent: seq<IntentCall>,
                                         i: nat, done: seq<PaymentIntentResponse>)
    requires 1 <= i <= |options|
    ensures var run := RunFrom(options, paymentMethodId, respond, sent, i, done);
      |sent| <= |run.calls| && run.calls[..|sent|] == sent && AnsweredAfter(respond, run.calls, |sent|)
    decreases |options| - i
  {
    if i < |options| {
      var create := CreateIntent(options[i]);
      var sent' := sent + [create];
      assert InstallmentCalls(options, paymentMethodId, respond, sent, i) == [create];
      var reply := respond(sent');
      if reply.Replied? {
        var done' := done + [IntentResponseOf(reply.value)];
        var run := RunFrom(options, paymentMethodId, respond, sent', i + 1, done');
        assert RunFrom(options, paymentMethodId, respond, sent, i, done) == run;
        LaterAnswered(options, paymentMethodId, respond, sent', i + 1, done');
        assert run.calls[..|sent|] == run.calls[..|sent'|][..|sent|];
      } else {
        assert sent'[..|sent|] == sent;
      }
    }
  }

  /**
    A whole run keeps the requests sent before it, and every request it
    sends, except the last, was answered: it stops at the first rejection.
   */
  lemma RunAnswered(options: seq<IntentCreateOptions>, paymentMethodId: NString,
                    respond: seq<IntentCall> -> Reply<PaymentIntent>, hist: seq<IntentCall>)
    requires |options| > 0
    ensures var run := RunFrom(options, paymentMethodId, respond, hist, 0, []);
      |hist| <= |run.calls| && run.calls[..|hist|] == hist && AnsweredAfter(respond, run.calls, |hist|)
  {
    var cs := InstallmentCalls(options, paymentMethodId, respond, hist, 0);
    var sent1 := hist + cs;
    var reply := respond(sent1);
    assert sent1[..|hist|] == hist;
    if |cs| == 2 {
      assert sent1[..|hist| + 1] == hist + [cs[0]];
    }
    if reply.Replied? {
      var done := [IntentResponseOf(reply.value)];
      assert [] + done == done;
      var rest := RunFrom(options, paymentMethodId, respond, sent1, 1, done);
      assert RunFrom(options, paymentMethodId, respond, hist, 0, []) == rest;
      LaterAnswered(options, paymentMethodId, respond, sent1, 1, done);
      assert rest.calls[..|hist|] == rest.calls[..|sent1|][..|hist|];
      forall j | |hist| < j <= |sent1|
        ensures respond(rest.calls[..j]).Replied?
      {
        assert rest.calls[..j] == sent1[..j];
      }
    }
  }

  /**
    A whole run that completes records one response per installment, in
    order, each built from the processor's answer to that installment's last
    request (the confirmation, for a confirmed first installment).
   */
  lemma RunRecords(options: seq<IntentCreateOptions>, paymentMethodId: NString,
                   respond: seq<IntentCall> -> Reply<PaymentIntent>, hist: seq<IntentCall>)
    requires |options| > 0
    requires RunFrom(options, paymentMethodId, respond, hist, 0, []).outcome.Ok?
    ensures var run := RunFrom(options, paymentMethodId, respond, hist, 0, []);
      var c := if ConfirmsFirst(options, respond, hist) then 1 else 0;
      var recorded := run.outcome.value;
      |run.calls| == |hist| + c + |options| && |recorded| == |options| &&
      forall k :: 0 <= k < |recorded| ==> RecordsAnswer(respond, run.calls[..|hist| + c + k + 1], recorded[k])
  {
    var cs := InstallmentCalls(options, paymentMethodId, respond, hist, 0);
    var sent1 := hist + cs;
    var reply := respond(sent1);
    var done := [IntentResponseOf(reply.value)];
    assert [] + done == done;
    var run := RunFrom(options, paymentMethodId, respond, sent1, 1, done);
    assert RunFrom(options, paymentMethodId, respond, hist, 0, []) == run;
    LaterCalls(options, paymentMethodId, respond, sent1, 1, done);
    LaterRecords(options, paymentMethodId, respond, sent1, 1, done);
    var recorded := run.outcome.value;
    assert run.calls[..|sent1|] == sent1;
    forall k | 0 <= k < |recorded|
      ensures RecordsAnswer(respond, run.calls[..|sent1| + k], recorded[k])
    {
      if k == 0 {
        assert recorded[0] == recorded[..|done|][0];
      } else {
        assert RecordsAnswer(respond, run.calls[..|sent1| + (k - |done|) + 1], recorded[k]);
      }
    }
  }

  // ---------------------------------------------------------------------------
  // What the plan does

  /** The options of the creation requests among `calls`, in order. */
  function CreatedOptions(calls: seq<IntentCall>): seq<IntentCreateOptions>
    decreases |calls|
  {
    if calls == [] then []
    else (if calls[0].CreateIntent? then [calls[0].options] else []) + CreatedOptions(calls[1..])
  }

  lemma {:induction false} CreatedOptionsAppend(a: seq<IntentCall>, b: seq<IntentCall>)
    ensures CreatedOptions(a + b) == CreatedOptions(a) + CreatedOptions(b)
    decreases |a|
  {
    if a == [] {
      assert a + b == b;
    } else {
      var head := if a[0].CreateIntent? then [a[0].options] else [];
      assert (a + b)[0] == a[0];
      assert (a + b)[1..] == a[1..] + b;
      assert CreatedOptions(a + b) == head + CreatedOptions(a[1..] + b);
      CreatedOptionsAppend(a[1..], b);
      assert head + (CreatedOptions(a[1..]) + CreatedOptions(b)) == (head + CreatedOptions(a[1..])) + CreatedOptions(b);
    }
  }

  lemma CreatedOptionsOfOne(call: IntentCall)
    ensures CreatedOptions([call]) == if call.CreateIntent? then [call.options] else []
  {
    assert [call][1..] == [];
  }

  lemma {:induction false} CreatedOptionsOfCreations(os: seq<IntentCreateOptions>)
    ensures CreatedOptions(Creations(os)) == os
    decreases |os|
  {
    if os != [] {
      assert Creations(os)[1..] == Creations(os[1..]);
      CreatedOptionsOfCreations(os[1..]);
    }
  }

  /** The amounts of the given options, in order. */
  function Amounts(os: seq<IntentCreateOptions>): seq<int> {
    seq(|os|, k requires 0 <= k < |os| => os[k].amount as int)
  }

  /**
    Installment k of a plan with a positive count is requested for its
    share of the split, in the plan's currency and for its customer; only
    the first carries the payment method and is captured automatically;
    every one is marked for off-session reuse and carries its position.
   */
  lemma PlanOptionsShape(request: CreatePaymentPlanRequest, planId: string, k: int)
    requires 0 <= k < request.numberOfInstallments
    ensures var n := request.numberOfInstallments;
      var o := PlanOptions(request, planId)[k];
      o.amount == Split(request.totalAmount, n)[k] &&
      o.currency == request.currency && o.customer == request.customerId &&
      (o.paymentMethod.Some? ==> k == 0) && (k == 0 ==> o.paymentMethod == request.paymentMethodId) &&
      o.captureMethod == Some(if k == 0 then "automatic" else "manual") &&
      o.setupFutureUsage == Some("off_session") &&
      o.description == Some(InstallmentDescription(request.description, k, n)) &&
      o.metadata == InstallmentMetadata(planId, k, n)
  {
    PlanOptionsAt(request, planId, k);
  }

  /** The amounts requested over a plan's installments are exactly its split, so they add up to the total. */
  lemma PlanOptionsChargeTotal(request: CreatePaymentPlanRequest, planId: string)
    requires request.numberOfInstallments > 0
    ensures Amounts(PlanOptions(request, planId)) == Split(request.totalAmount, request.numberOfInstallments)
    ensures Sum(Amounts(PlanOptions(request, planId))) == request.totalAmount
  {
    var n := request.numberOfInstallments;
    var a := Amounts(PlanOptions(request, planId));
    var sp := Split(request.totalAmount, n);
    forall k | 0 <= k < n
      ensures a[k] == sp[k]
    {
      PlanOptionsShape(request, planId, k);
    }
    SplitSumsToTotal(request.totalAmount, n);
  }

  /**
    Without a positive count no request is sent: a zero count fails the
    division, the one overflowing division fails too, and a negative count
    returns an empty plan.
   */
  lemma PlanWithoutInstallments(request: CreatePaymentPlanRequest, guid: string,
                                respond: seq<IntentCall> -> Reply<PaymentIntent>, hist: seq<IntentCall>)
    requires request.numberOfInstallments <= 0
    ensures var n := request.numberOfInstallments;
      var run := Plan(request, guid, respond, hist);
      run.calls == hist &&
      (n == 0 ==> run.outcome == Err(DivideByZero)) &&
      (n == -1 && request.totalAmount == MinInt64 ==> run.outcome == Err(ArithmeticOverflow)) &&
      (n < 0 && !(n == -1 && request.totalAmount == MinInt64) ==>
         run.outcome == Ok(PaymentPlanResponse(PlanId(guid), n, BaseAmount(request.totalAmount, n), [])))
  {
  }

  /** With a positive count, the plan is the whole run over its options, its outcome wrapped. */
  lemma PlanIsRun(request: CreatePaymentPlanRequest, guid: string,
                  respond: seq<IntentCall> -> Reply<PaymentIntent>, hist: seq<IntentCall>)
    requires request.numberOfInstallments > 0
    ensures var n := request.numberOfInstallments;
      var whole := RunFrom(PlanOptions(request, PlanId(guid)), request.paymentMethodId, respond, hist, 0, []);
      var run := Plan(request, guid, respond, hist);
      run.calls == whole.calls &&
      (whole.outcome.Ok? ==>
         run.outcome == Ok(PaymentPlanResponse(PlanId(guid), n, BaseAmount(request.totalAmount, n), whole.outcome.value))) &&
      (whole.outcome.Err? ==> run.outcome == Err(ApplicationError(PlanErrorPrefix + whole.outcome.error)))
  {
  }

  /**
    With a positive count the plan sends, after `hist`: the first
    installment's creation, its confirmation exactly when the created intent
    has not succeeded, then one creation per later installment up to the
    first rejection, which becomes an application error carrying the
    processor's message; every request before the last was answered, and it
    returns only once every installment is created.
   */
  lemma PlanRequests(request: CreatePaymentPlanRequest, guid: string,
                     respond: seq<IntentCall> -> Reply<PaymentIntent>, hist: seq<IntentCall>)
    requires request.numberOfInstallments > 0
    ensures var run := Plan(request, guid, respond, hist);
      |hist| <= |run.calls| && run.calls[..|hist|] == hist && AnsweredAfter(respond, run.calls, |hist|)
    ensures var options := PlanOptions(request, PlanId(guid));
      var run := Plan(request, guid, respond, hist);
      var c := if ConfirmsFirst(options, respond, hist) then 1 else 0;
      var sent := run.calls[|hist|..];
      var m := |sent| - c;
      1 <= m <= request.numberOfInstallments &&
      sent[0] == CreateIntent(options[0]) &&
      (c == 1 ==> sent[1] == ConfirmIntent(respond(hist + [CreateIntent(options[0])]).value.id,
                                             IntentConfirmOptions(request.paymentMethodId))) &&
      sent[c + 1..] == Creations(options[1..m]) &&
      (run.outcome.Ok? ==> m == request.numberOfInstallments) &&
      (run.outcome.Err? ==>
         respond(run.calls).Rejected? &&
         run.outcome.error == ApplicationError(PlanErrorPrefix + respond(run.calls).message))
  {
    PlanIsRun(request, guid, respond, hist);
    RunCalls(PlanOptions(request, PlanId(guid)), request.paymentMethodId, respond, hist);
    RunAnswered(PlanOptions(request, PlanId(guid)), request.paymentMethodId, respond, hist);
  }

  /**
    A plan that completes describes itself (its identifier, its count and
    its base amount) and records one installment per installment, in order,
    each from the processor's answer to that installment's last request.
   */
  lemma PlanRecords(request: CreatePaymentPlanRequest, guid: string,
                    respond: seq<IntentCall> -> Reply<PaymentIntent>, hist: seq<IntentCall>)
    requires request.numberOfInstallments > 0
    requires Plan(request, guid, respond, hist).outcome.Ok?
    ensures var n := request.numberOfInstallments;
      var options := PlanOptions(request, PlanId(guid));
      var run := Plan(request, guid, respond, hist);
      var c := if ConfirmsFirst(options, respond, hist) then 1 else 0;
      var plan := run.outcome.value;
      |run.calls| == |hist| + c + n &&
      plan.planId == PlanId(guid) && plan.numberOfInstallments == n &&
      plan.installmentAmount == BaseAmount(request.totalAmount, n) && |plan.installments| == n &&
      forall k :: 0 <= k < n ==> RecordsAnswer(respond, run.calls[..|hist| + c + k + 1], plan.installments[k])
  {
    PlanIsRun(request, guid, respond, hist);
    RunRecords(PlanOptions(request, PlanId(guid)), request.paymentMethodId, respond, hist);
  }

  /**
    The creations among requests shaped like a run's, the first creation,
    an optional confirmation and the later creations, are those of the
    first installments.
   */
  lemma CreatedOptionsOfTrace(options: seq<IntentCreateOptions>, sent: seq<IntentCall>, c: nat)
    requires c <= 1 && c + 1 <= |sent| <= c + |options|
    requires sent[0] == CreateIntent(options[0])
    requires c == 1 ==> sent[1].ConfirmIntent?
    requires sent[c + 1..] == Creations(options[1..|sent| - c])
    ensures CreatedOptions(sent) == options[..|sent| - c]
  {
    var m := |sent| - c;
    var head := sent[..c + 1];
    var tail := sent[c + 1..];
    assert sent == head + tail;
    CreatedOptionsAppend(head, tail);
    CreatedOptionsOfCreations(options[1..m]);
    CreatedOptionsOfHead(head, options[0]);
    assert [options[0]] + options[1..m] == options[..m];
  }

  /** A creation, optionally followed by a confirmation, creates just its own options. */
  lemma {:induction false} CreatedOptionsOfHead(head: seq<IntentCall>, o: IntentCreateOptions)
    requires 1 <= |head| <= 2 && head[0] == CreateIntent(o)
    requires |head| == 2 ==> head[1].ConfirmIntent?
    ensures CreatedOptions(head) == [o]
  {
    if |head| == 2 {
      assert head[1..] == [head[1]];
      CreatedOptionsOfOne(head[1]);
    } else {
      assert head[1..] == [];
    }
  }

  /** In requests shaped like a run's, a confirmation can only be the optional second request. */
  lemma ConfirmInTrace(options: seq<IntentCreateOptions>, sent: seq<IntentCall>, c: nat, j: int)
    requires c <= 1 && c + 1 <= |sent| <= c + |options|
    requires sent[0] == CreateIntent(options[0])
    requires sent[c + 1..] == Creations(options[1..|sent| - c])
    requires 0 <= j < |sent| && sent[j].ConfirmIntent?
    ensures j == 1 && c == 1
  {
    if j > c {
      assert sent[j] == sent[c + 1..][j - c - 1];
      CreationsAt(options[1..|sent| - c], j - c - 1);
    }
  }

  /** The creation requests of a whole run carry the options of its first installments, in order, one each. */
  lemma RunCreated(options: seq<IntentCreateOptions>, paymentMethodId: NString,
                   respond: seq<IntentCall> -> Reply<PaymentIntent>, hist: seq<IntentCall>)
    requires |options| > 0
    ensures var run := RunFrom(options, paymentMethodId, respond, hist, 0, []);
      |hist| <= |run.calls|
    ensures var run := RunFrom(options, paymentMethodId, respond, hist, 0, []);
      var created := CreatedOptions(run.calls[|hist|..]);
      1 <= |created| <= |options| && created == options[..|created|] &&
      (run.outcome.Ok? ==> created == options)
  {
    RunCalls(options, paymentMethodId, respond, hist);
    var run := RunFrom(options, paymentMethodId, respond, hist, 0, []);
    var c := if ConfirmsFirst(options, respond, hist) then 1 else 0;
    var sent := run.calls[|hist|..];
    CreatedOptionsOfTrace(options, sent, c);
  }

  /**
    The creation requests a plan sends carry the options of its first
    installments, in order, one each; a plan that completes has requested
    every installment, for amounts that add up to the total.
   */
  lemma PlanCreatesInOrder(request: CreatePaymentPlanRequest, guid: string,
                           respond: seq<IntentCall> -> Reply<PaymentIntent>, hist: seq<IntentCall>)
    requires request.numberOfInstallments > 0
    ensures var run := Plan(request, guid, respond, hist);
      |hist| <= |run.calls|
    ensures var options := PlanOptions(request, PlanId(guid));
      var run := Plan(request, guid, respond, hist);
      var created := CreatedOptions(run.calls[|hist|..]);
      1 <= |created| <= request.numberOfInstallments && created == options[..|created|] &&
      (run.outcome.Ok? ==> created == options && Sum(Amounts(created)) == request.totalAmount)
  {
    PlanIsRun(request, guid, respond, hist);
    RunCreated(PlanOptions(request, PlanId(guid)), request.paymentMethodId, respond, hist);
    PlanOptionsChargeTotal(request, PlanId(guid));
  }

  /** Only the first installment is ever confirmed, right after its creation, with the first intent's id. */
  lemma PlanConfirmsOnlyFirst(request: CreatePaymentPlanRequest, guid: string,
                              respond: seq<IntentCall> -> Reply<PaymentIntent>, hist: seq<IntentCall>, j: int)
    requires request.numberOfInstallments > 0
    requires var run := Plan(request, guid, respond, hist);
      |hist| <= j < |run.calls| && run.calls[j].ConfirmIntent?
    ensures var options := PlanOptions(request, PlanId(guid));
      var first := respond(hist + [CreateIntent(options[0])]);
      j == |hist| + 1 && ConfirmsFirst(options, respond, hist) &&
      Plan(request, guid, respond, hist).calls[j] ==
        ConfirmIntent(first.value.id, IntentConfirmOptions(request.paymentMethodId))
  {
    PlanIsRun(request, guid, respond, hist);
    RunConfirmsOnlyFirst(PlanOptions(request, PlanId(guid)), request.paymentMethodId, respond, hist, j);
  }

  /** The generic form of PlanConfirmsOnlyFirst, for any run of options. */
  lemma RunConfirmsOnlyFirst(options: seq<IntentCreateOptions>, paymentMethodId: NString,
                             respond: seq<IntentCall> -> Reply<PaymentIntent>, hist: seq<IntentCall>, j: int)
    requires |options| > 0
    requires var run := RunFrom(options, paymentMethodId, respond, hist, 0, []);
      |hist| <= j < |run.calls| && run.calls[j].ConfirmIntent?
    ensures var first := respond(hist + [CreateIntent(options[0])]);
      j == |hist| + 1 && ConfirmsFirst(options, respond, hist) &&
      RunFrom(options, paymentMethodId, respond, hist, 0, []).calls[j] ==
        ConfirmIntent(first.value.id, IntentConfirmOptions(paymentMethodId))
  {
    var run := RunFrom(options, paymentMethodId, respond, hist, 0, []);
    RunCalls(options, paymentMethodId, respond, hist);
    var c := if ConfirmsFirst(options, respond, hist) then 1 else 0;
    var sent := run.calls[|hist|..];
    assert sent[j - |hist|] == run.calls[j];
    ConfirmInTrace(options, sent, c, j - |hist|);
  }

  // ---------------------------------------------------------------------------
  // The service

  /**
    One pass of the installment loop: works out installment i's amount,
    metadata and options, creates its payment intent and, for the first
    installment when the created intent has not succeeded, confirms it with
    the caller's payment method. Returns the processor's last answer.
   */
  method CreateInstallment(request: CreatePaymentPlanRequest, planId: string, installmentAmount: Int64,
                           i: int, gateway: IntentService)
    returns (reply: Reply<PaymentIntent>)
    requires 0 <= i < request.numberOfInstallments
    requires installmentAmount == BaseAmount(request.totalAmount, request.numberOfInstallments)
    modifies gateway
    ensures gateway.calls == old(gateway.calls) +
      InstallmentCalls(PlanOptions(request, planId), request.paymentMethodId, gateway.respond, old(gateway.calls), i)
    ensures reply == gateway.respond(gateway.calls)
  {
    var n := request.numberOfInstallments;
    var total := request.totalAmount;
    var amount: int := installmentAmount;
    if i == n - 1 {
      amount := amount + (total - installmentAmount * n);
    }
    assert amount == InstallmentAmount(total, n, i);
    PlanOptionsAt(request, planId, i);
    var isFirstInstallment := i == 0;
    var options := IntentCreateOptions(
      amount := amount,
      currency := request.currency,
      customer := request.customerId,
      paymentMethod := if isFirstInstallment then request.paymentMethodId else None,
      description := Some(InstallmentDescription(request.description, i, n)),
      metadata := InstallmentMetadata(planId, i, n),
      captureMethod := Some(if isFirstInstallment then "automatic" else "manual"),
      setupFutureUsage := Some("off_session"));
    reply := gateway.CreateAsync(options);
    if isFirstInstallment && reply.Replied? && reply.value.status != Some("succeeded") {
      reply := gateway.ConfirmAsync(reply.value.id, IntentConfirmOptions(request.paymentMethodId));
    }
  }

  /**
    `CreatePaymentPlanAsync`: divides the total, names the plan after the
    GUID text `guid`, creates one payment intent per installment in order and
    turns the processor's first rejection into an application error carrying
    its message.
   */
  method CreatePaymentPlanAsync(request: CreatePaymentPlanRequest, guid: string, gateway: IntentService)
    returns (r: Result<PaymentPlanResponse, Exception>)
    modifies gateway
    ensures var run := Plan(request, guid, gateway.respond, old(gateway.calls));
      gateway.calls == run.calls && r == run.outcome
  {
    var n := request.numberOfInstallments;
    var total := request.totalAmount;
    if n == 0 {
      return Err(DivideByZero);
    }
    if total == MinInt64 && n == -1 {
      return Err(ArithmeticOverflow);
    }
    var installmentAmount := BaseAmount(total, n);
    var planId := PlanId(guid);
    var installments: seq<PaymentIntentResponse> := [];
    ghost var run := RunFrom(PlanOptions(request, planId), request.paymentMethodId, gateway.respond, gateway.calls, 0, []);
    var i: int := 0;
    while i < n
      invariant 0 <= i
      invariant RunFrom(PlanOptions(request, planId), request.paymentMethodId, gateway.respond, gateway.calls, i, installments) == run
    {
      var reply := CreateInstallment(request, planId, installmentAmount, i, gateway);
      if reply.Rejected? {
        return Err(ApplicationError(PlanErrorPrefix + reply.message));
      }
      installments := installments + [IntentResponseOf(reply.value)];
      i := i + 1;
    }
    return Ok(PaymentPlanResponse(planId, n, installmentAmount, installments));
  }
}
