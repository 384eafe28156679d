# Payment operations: a Dafny model

This project models the decision-making core of a small ASP.NET API in
front of a card payment processor (Stripe). The core has five parts:

- **Payment plans.** `PaymentPlanService.CreatePaymentPlanAsync` splits a
  total into installments. Every installment gets the truncated quotient,
  and the last one also gets the remainder. For each installment, in order,
  the service creates a payment intent that carries correlation metadata.
  It confirms the first intent when that intent has not already succeeded.
  It answers with the plan's records, or rethrows a processor rejection.
- **Webhooks.** `WebhookService.ProcessWebhookAsync` has the processor
  verify an event. It dispatches on the event type to one of three
  handlers, then acknowledges the event. The two intent handlers read the
  plan correlation back out of the intent's metadata.
- **Payments.** `PaymentService` builds the processor's options for one
  payment intent, a confirmation, a refund and a card payment method, and
  maps the processor's answer to a response. Refunds normalise the reason
  first.
- **The plan endpoint.** `PaymentPlansController` checks the request in a
  fixed order before it calls the plan service.
- **The payment endpoints.** `PaymentsController` does the same for the
  four payment operations.

The processor is not modelled. The plan service talks to
`Gateway.IntentService`. That class records every request in `calls` and
answers each one with an arbitrary function `respond` of the request
history, which may also reject the request. The other services take the
processor call as a function parameter. Event verification
(`EventUtility.ConstructEvent`) is likewise a function parameter `construct`.

The plan loop is an imperative method over that class. Its specification
is the function `Plan`, built on the tail-recursive `RunFrom`, and the
lemmas state what the plan sends and answers.

The C# runtime behaviour the code relies on is written out in `DotNet`:

- `long` and `int` ranges;
- truncating `/`, defined for a non-zero divisor only; the division by
  zero and the one overflowing division `long.MinValue / -1` are raised
  as exceptions by `PaymentPlanService.Plan` and `CreatePaymentPlanAsync`,
  which test for them before dividing (the exception kinds are declared
  in `DotNet`);
- `int.ToString()` and `int.Parse`, with trimming, an optional sign and
  overflow;
- `string.IsNullOrEmpty`;
- the dictionary indexer that throws on a missing key;
- exceptions as a kind and a message;
- controller action results.

Nullable strings are `Option<string>`.

Modules, one file each: `Wrappers`, `DotNet`, `Gateway`, `Models`,
`PaymentPlanService`, `WebhookService`, `PaymentService`,
`PaymentPlansController`, `PaymentsController`.

The model follows the code as written. In particular, the code does not
do the following:

- It does not validate installment metadata beyond parsing it. When a
  count is missing or not a number, the lookup or parse exception escapes
  the webhook service; the event is neither reported nor skipped. It also
  never checks that the installment number is at most the count.
- It does not report the installments already created when the processor
  fails part-way through a plan. The failure is rethrown as one
  `ApplicationException`, and the intents created before it stay in place.
- The plan service itself does not reject a non-positive count. A zero
  count throws `DivideByZeroException`, `long.MinValue` over a count of
  −1 throws `OverflowException`, and any other negative count yields an
  empty plan. Only the endpoint's checks exclude these cases.

## Model

| member | source | states |
|---|---|---|
| DotNet.TruncDiv | PaymentOperations.Api/Services/IPaymentPlanService.cs:21 | definition: C# `/` on integers, which truncates toward zero |
| DotNet.TruncDivTruncates | PaymentOperations.Api/Services/IPaymentPlanService.cs:21 | with magnitudes A and B of the operands, the quotient's magnitude q satisfies A − B < q·B ≤ A, and the quotient is non-negative when the operands' signs agree and non-positive when they differ |
| DotNet.OrEmpty | PaymentOperations.Api/Services/IPaymentPlanService.cs:55 | definition: a null string interpolates as empty text, and any other string as itself |
| DotNet.Lookup | PaymentOperations.Api/Services/IWebhookService.cs:72 | definition: the dictionary indexer gives the key's value, and throws `KeyNotFoundException` for a missing key |
| DotNet.IsNullOrEmpty | PaymentOperations.Api/Controllers/PaymentPlansController.cs:29-34 | definition: `string.IsNullOrEmpty`, true for null and for the empty string (also used at PaymentsController.cs lines 41, 63, 68 and 90, and IPaymentService.cs lines 34 and 123) |
| DotNet.Concat | PaymentOperations.Api/Services/IPaymentPlanService.cs:55 | definition: the text of an interpolated string, its parts joined in order |
| DotNet.DictionaryOf | PaymentOperations.Api/Services/IPaymentPlanService.cs:39-44 | definition: the dictionary of the given pairs, whose keys are distinct |
| DotNet.IntToString | PaymentOperations.Api/Services/IPaymentPlanService.cs:42-43 | definition: `int.ToString()`, an optional "-" followed by the decimal digits of the magnitude |
| DotNet.ActionOf | PaymentOperations.Api/Controllers/PaymentPlansController.cs:39-46 | a service result becomes 200 with the value unchanged, and any exception becomes 500 carrying the exception's message |
| DotNet.NatToStringDigits | PaymentOperations.Api/Services/IPaymentPlanService.cs:42-43 | the decimal text of a natural number is a non-empty run of digits with no leading zero |
| DotNet.IntToStringShape | PaymentOperations.Api/Services/IPaymentPlanService.cs:42-43 | `ToString` of an integer ends in a digit, and starts with "-" exactly when the integer is negative |
| DotNet.DigitsValueOfNatToString | PaymentOperations.Api/Services/IPaymentPlanService.cs:42-43 | the digits `ToString` writes for a natural number denote that number |
| DotNet.IsWhite | PaymentOperations.Api/Services/IWebhookService.cs:72-73 | definition: the white space `int.Parse` skips, a space or a character from tab to carriage return |
| DotNet.TrimStart | PaymentOperations.Api/Services/IWebhookService.cs:72-73 | the result is a suffix of the input that does not start with white space, and every character removed is white space |
| DotNet.TrimEnd | PaymentOperations.Api/Services/IWebhookService.cs:72-73 | the result is a prefix of the input that does not end with white space, and every character removed is white space |
| DotNet.Trim | PaymentOperations.Api/Services/IWebhookService.cs:72-73 | leading and trailing white space removed; every character of the result comes from the input |
| DotNet.ParseInt32 | PaymentOperations.Api/Services/IWebhookService.cs:72 | `int.Parse` fails only with a format or an overflow exception |
| DotNet.ParseRejectsTextWithoutDigits | PaymentOperations.Api/Services/IWebhookService.cs:72 | text that contains no decimal digit is rejected as badly formatted |
| DotNet.ParseOfTrimmed | PaymentOperations.Api/Services/IWebhookService.cs:72 | an optional "-" followed by digits whose value fits an `int` parses to that signed value |
| DotNet.ParseIntToString | PaymentOperations.Api/Services/IWebhookService.cs:72-73 | `int.Parse(x.ToString())` is `x` for every `int` x |
| Gateway.IntentService.CreateAsync | PaymentOperations.Api/Services/IPaymentPlanService.cs:61 | a creation request is appended to the processor's history, and the answer is the processor's answer to that history |
| Gateway.IntentService.ConfirmAsync | PaymentOperations.Api/Services/IPaymentPlanService.cs:71 | a confirmation request is appended to the history, and the answer is the processor's answer to it |
| PaymentPlanService.PlanId | PaymentOperations.Api/Services/IPaymentPlanService.cs:24 | the plan id is "plan_" followed by the GUID text |
| PaymentPlanService.InstallmentAmount | PaymentOperations.Api/Services/IPaymentPlanService.cs:32-36 | definition: installment i's amount, the base amount plus, for the last installment, the remainder |
| PaymentPlanService.Split | PaymentOperations.Api/Services/IPaymentPlanService.cs:29-36 | definition: the list of installment amounts, one per installment |
| PaymentPlanService.InstallmentMetadata | PaymentOperations.Api/Services/IPaymentPlanService.cs:39-44 | definition: the metadata dictionary of installment i |
| PaymentPlanService.InstallmentDescription | PaymentOperations.Api/Services/IPaymentPlanService.cs:55 | definition: the interpolated description of installment i |
| PaymentPlanService.InstallmentOptions | PaymentOperations.Api/Services/IPaymentPlanService.cs:47-59 | definition: the creation options of installment i |
| PaymentPlanService.InstallmentCalls | PaymentOperations.Api/Services/IPaymentPlanService.cs:61-72 | definition: the requests one installment sends: its creation, and for the first installment a confirmation when the created intent was answered with a status other than "succeeded" |
| PaymentPlanService.RunFrom | PaymentOperations.Api/Services/IPaymentPlanService.cs:29-82 | definition: the loop from installment i on, as the requests sent and either the records or the first rejection's message |
| PaymentPlanService.Plan | PaymentOperations.Api/Services/IPaymentPlanService.cs:16-97 | definition: the whole service, as the requests sent and the response or the exception thrown |
| PaymentPlanService.BaseAmount | PaymentOperations.Api/Services/IPaymentPlanService.cs:21 | for n > 0, the base amount is the truncated quotient: for a non-negative total, b·n ≤ total < b·n + n; for a negative total, total ≤ b·n < total + n |
| PaymentPlanService.RemainderBounds | PaymentOperations.Api/Services/IPaymentPlanService.cs:32-36 | for a non-negative total, 0 ≤ base ≤ last ≤ total and the last exceeds the base by less than n; for a negative total, total ≤ last ≤ base ≤ 0 |
| PaymentPlanService.SplitSumsToTotal | PaymentOperations.Api/Services/IPaymentPlanService.cs:29-36 | every installment but the last has the base amount, the last has base + (total − base·n), and the amounts add up to the total exactly |
| PaymentPlanService.SplitBounds | PaymentOperations.Api/Services/IPaymentPlanService.cs:32-36 | for a positive total no amount is negative, and base ≤ last < base + n |
| PaymentPlanService.SplitExamples | PaymentOperations.Api/Services/IPaymentPlanService.cs:32-36 | 100 over 3 is [33, 33, 34], 10 over 4 is [2, 2, 2, 4], and 7 over 1 is [7] |
| PaymentPlanService.InstallmentMetadataEntries | PaymentOperations.Api/Services/IPaymentPlanService.cs:39-44 | installment i's metadata has exactly the keys plan_id, installment_number and total_installments, holding the plan id, the text of i + 1 and the text of n |
| PaymentPlanService.InstallmentDescriptionText | PaymentOperations.Api/Services/IPaymentPlanService.cs:55 | the description reads "<description> - Installment <i + 1> of <n>", with a null description rendered as empty |
| PaymentPlanService.PlanOptions | PaymentOperations.Api/Services/IPaymentPlanService.cs:29 | there is one set of options per installment, and none when the count is not positive |
| PaymentPlanService.PlanOptionsShape | PaymentOperations.Api/Services/IPaymentPlanService.cs:49-59 | installment k is requested for its share of the split, in the request's currency, for its customer, with its metadata and description; only k = 0 carries the payment method and automatic capture, the others have manual capture, and every one asks for off-session reuse |
| PaymentPlanService.PlanOptionsChargeTotal | PaymentOperations.Api/Services/IPaymentPlanService.cs:29-51 | the amounts requested over the installments are exactly the split, and they add up to the total |
| PaymentPlanService.Creations | PaymentOperations.Api/Services/IPaymentPlanService.cs:61 | definition: the creation requests for a list of options, one per set of options; its contract states only that length, and the positions are stated by CreationsAt |
| PaymentPlanService.CreationsAt | PaymentOperations.Api/Services/IPaymentPlanService.cs:61 | the k-th creation request carries the k-th options |
| PaymentPlanService.LaterCalls | PaymentOperations.Api/Services/IPaymentPlanService.cs:29-61 | from installment 1 on, each installment sends exactly one creation, in ascending order; the loop completes only after the last one, and a failure is the rejection of the last request sent |
| PaymentPlanService.LaterAnswered | PaymentOperations.Api/Services/IPaymentPlanService.cs:29-61 | from installment 1 on, the earlier history is kept and every request sent but the last was answered by the processor |
| PaymentPlanService.LaterRecords | PaymentOperations.Api/Services/IPaymentPlanService.cs:74-81 | a completed run from installment 1 on records, for each installment, the response built from the processor's answer to its creation |
| PaymentPlanService.RunCalls | PaymentOperations.Api/Services/IPaymentPlanService.cs:29-72 | a run sends the first creation, then a confirmation exactly when the first created intent has not succeeded, then the later creations in order; it completes only after every creation, and a failure is the rejection of the last request sent |
| PaymentPlanService.RunAnswered | PaymentOperations.Api/Services/IPaymentPlanService.cs:29-72 | a run keeps the earlier history, and every request it sends but the last was answered, so it stops at the first rejection |
| PaymentPlanService.RunRecords | PaymentOperations.Api/Services/IPaymentPlanService.cs:74-81 | a completed run records one response per installment, each built from the processor's last answer for that installment |
| PaymentPlanService.CreatedOptionsAppend | PaymentOperations.Api/Services/IPaymentPlanService.cs:61 | the creations of two histories joined are those of the first followed by those of the second |
| PaymentPlanService.CreatedOptionsOfCreations | PaymentOperations.Api/Services/IPaymentPlanService.cs:61 | a history of creation requests creates exactly its options |
| PaymentPlanService.Amounts | PaymentOperations.Api/Services/IPaymentPlanService.cs:51 | definition: the amounts of a list of options, position by position |
| PaymentPlanService.PlanWithoutInstallments | PaymentOperations.Api/Services/IPaymentPlanService.cs:21-29 | with a count that is not positive, nothing is sent; a zero count throws `DivideByZeroException`, long.MinValue over −1 throws `OverflowException`, and any other negative count gives an empty plan |
| PaymentPlanService.PlanIsRun | PaymentOperations.Api/Services/IPaymentPlanService.cs:84-95 | with a positive count, the plan's answer is the run's records wrapped in the response, and its failure is the rejection message wrapped as "Error creating payment plan: …" |
| PaymentPlanService.PlanRequests | PaymentOperations.Api/Services/IPaymentPlanService.cs:29-72 | after the earlier history, a plan sends the first creation, its confirmation exactly when needed, and then later creations in order; at most n creations are sent, all n when it completes; every request but the last was answered, and a failure is the last request's rejection wrapped as `ApplicationException` |
| PaymentPlanService.PlanRecords | PaymentOperations.Api/Services/IPaymentPlanService.cs:74-90 | a completed plan sends n creations plus the optional confirmation, reports the plan id, the request's count and the base (not the adjusted last) amount, and its k-th record is the processor's answer that ended installment k |
| PaymentPlanService.CreatedOptionsOfTrace | PaymentOperations.Api/Services/IPaymentPlanService.cs:61 | a history shaped like a run's creates a prefix of the options, in order |
| PaymentPlanService.RunCreated | PaymentOperations.Api/Services/IPaymentPlanService.cs:29-61 | a run creates a non-empty prefix of its options in order, and all of them when it completes |
| PaymentPlanService.PlanCreatesInOrder | PaymentOperations.Api/Services/IPaymentPlanService.cs:29-61 | a plan creates a non-empty prefix of its installments in ascending order; a completed plan creates all n, for amounts that add up to the total |
| PaymentPlanService.ConfirmInTrace | PaymentOperations.Api/Services/IPaymentPlanService.cs:63-72 | in a history shaped like a run's, a confirmation can only be the second request |
| PaymentPlanService.RunConfirmsOnlyFirst | PaymentOperations.Api/Services/IPaymentPlanService.cs:63-72 | any confirmation a run sends is the one right after the first creation; it is sent only when that intent has not succeeded, for that intent's id and with the payment method |
| PaymentPlanService.PlanConfirmsOnlyFirst | PaymentOperations.Api/Services/IPaymentPlanService.cs:63-72 | a plan confirms at most once: only right after installment 1 is created, only when its status is not "succeeded", for its id and with the request's payment method |
| PaymentPlanService.CreateInstallment | PaymentOperations.Api/Services/IPaymentPlanService.cs:31-72 | one loop pass sends installment i's creation, then the confirmation when i = 0 and the created intent has not succeeded, and answers with the last reply |
| PaymentPlanService.CreatePaymentPlanAsync | PaymentOperations.Api/Services/IPaymentPlanService.cs:16-97 | the processor history and the answer are exactly those of the specification `Plan` |
| WebhookService.EventTypeOf | PaymentOperations.Api/Services/IWebhookService.cs:31-39 | definition: the case label of each handler, "payment_intent.succeeded", "payment_intent.payment_failed" and "charge.refunded" |
| WebhookService.HandlerFor | PaymentOperations.Api/Services/IWebhookService.cs:29-44 | each of the three event types selects its own handler, and any other type selects none |
| WebhookService.ExtractPlanCorrelation | PaymentOperations.Api/Services/IWebhookService.cs:70-73 | an intent is not plan-related exactly when its metadata has no plan_id; a plan-related correlation carries that plan_id; a failure is a missing-key, format or overflow exception |
| WebhookService.CorrelationOfPlanMetadata | PaymentOperations.Api/Services/IWebhookService.cs:70-73 | with a plan_id, extraction succeeds exactly when both counts are present and parse, gives their parsed values, and reports a missing installment_number first |
| WebhookService.PlanMetadataRoundTrip | PaymentOperations.Api/Services/IWebhookService.cs:72-73 | the metadata the plan service writes for installment i of n decodes to installment i + 1 of n of the same plan |
| WebhookService.HandleIntent | PaymentOperations.Api/Services/IWebhookService.cs:65-102 | both intent handlers throw for a null intent, succeed exactly when extraction succeeds, and then observe the intent's id and its correlation; they never throw a processor exception |
| WebhookService.AsIntent | PaymentOperations.Api/Services/IWebhookService.cs:32-36 | definition: `data.Object as PaymentIntent` (lines 32 and 36), null unless the object is an intent |
| WebhookService.AsCharge | PaymentOperations.Api/Services/IWebhookService.cs:40 | definition: `data.Object as Charge`, null unless the object is a charge |
| WebhookService.HandleChargeRefunded | PaymentOperations.Api/Services/IWebhookService.cs:104-110 | the refund handler throws exactly for a null charge and otherwise observes its id |
| WebhookService.Dispatch | PaymentOperations.Api/Services/IWebhookService.cs:29-44 | an unrecognised type runs no handler; a recognised type runs its handler on the event's object, so a refund with a charge is observed with the charge's id, an intent event with an intent succeeds exactly when its plan metadata reads and is observed with its id and correlation, and an object of the wrong type throws `NullReferenceException`; a handler failure is never a processor exception |
| WebhookService.FailureResponse | PaymentOperations.Api/Services/IWebhookService.cs:56-61 | definition: the failure response, with success false, "Error processing webhook: " before the message, and no event type |
| WebhookService.CatchStripe | PaymentOperations.Api/Services/IWebhookService.cs:53-62 | exactly the processor's exceptions become the failure response, and every other exception propagates unchanged |
| WebhookService.ProcessWebhook | PaymentOperations.Api/Services/IWebhookService.cs:15-63 | a verification failure is caught or propagated by its kind; success is reported exactly when verification and dispatch both succeed, with the event's type; a failure response has no type; a handler exception propagates |
| WebhookService.UnrecognisedEventAcknowledged | PaymentOperations.Api/Services/IWebhookService.cs:43-51 | an event of a type no handler serves is acknowledged with success and its type |
| WebhookService.VerificationFailureAnswered | PaymentOperations.Api/Services/IWebhookService.cs:53-61 | a processor exception from verification yields success = false, "Error processing webhook: <message>" and no event type |
| WebhookService.BadPlanMetadataEscapes | PaymentOperations.Api/Services/IWebhookService.cs:72-73 | an intent event with a plan_id but an unreadable count makes the service throw that lookup or parse exception, which is not a processor exception |
| WebhookService.MistypedObjectEscapes | PaymentOperations.Api/Services/IWebhookService.cs:32-41 | an event whose object is not of the type its handler casts to makes the service throw `NullReferenceException` |
| WebhookService.PlanInstallmentEventAcknowledged | PaymentOperations.Api/Services/IWebhookService.cs:65-79 | an intent event for an installment the plan service created is handled, and observes the plan id, the 1-based installment number and the count |
| PaymentService.Rethrown | PaymentOperations.Api/Services/IPaymentService.cs:50-53 | a processor rejection is rethrown as `ApplicationException` with the operation's prefix before the processor's message |
| PaymentService.IntentOptionsFor | PaymentOperations.Api/Services/IPaymentService.cs:25-37 | the amount, currency, description and metadata pass through, off-session reuse is always requested, the customer is set exactly when one is given, and no payment method or capture method is set |
| Models.IntentResponseOf | PaymentOperations.Api/Services/IPaymentService.cs:41-48 | definition: the response body for a payment intent answer |
| PaymentService.IntentResponseCopies | PaymentOperations.Api/Services/IPaymentService.cs:41-48 | the intent response copies the client secret, id, status, amount and currency unchanged |
| PaymentService.CreatePaymentIntent | PaymentOperations.Api/Services/IPaymentService.cs:20-54 | the service answers exactly when the processor does, with the copied response, and otherwise throws "Error creating payment intent: <message>" |
| PaymentService.ConfirmPaymentIntent | PaymentOperations.Api/Services/IPaymentService.cs:56-82 | the intent id and the payment method are confirmed as given; the response is copied, and a rejection throws "Error confirming payment intent: <message>" |
| PaymentService.IsRefundReason | PaymentOperations.Api/Services/IPaymentService.cs:95-97 | definition: the three reasons the switch keeps, duplicate, fraudulent and requested_by_customer |
| PaymentService.LowerChar | PaymentOperations.Api/Services/IPaymentService.cs:93 | definition: letters A to Z become lower case, and every other character is kept |
| PaymentService.ToLower | PaymentOperations.Api/Services/IPaymentService.cs:93 | lower-casing keeps the length, leaves no capital A to Z, turns each capital into the small letter at the same place in the alphabet, and keeps every other character |
| PaymentService.ToLowerIdempotent | PaymentOperations.Api/Services/IPaymentService.cs:93 | lower-casing twice is lower-casing once |
| PaymentService.NormalizeReason | PaymentOperations.Api/Services/IPaymentService.cs:92-99 | a null reason stays null; the result is non-null exactly when the lower-cased reason is duplicate, fraudulent or requested_by_customer, and is then that lower-cased reason |
| PaymentService.NormalizeReasonIdempotent | PaymentOperations.Api/Services/IPaymentService.cs:92-99 | normalising a normalised reason changes nothing |
| PaymentService.NormalizeReasonIgnoresCase | PaymentOperations.Api/Services/IPaymentService.cs:93 | reasons equal up to letter case are normalised alike |
| PaymentService.NormalizeReasonAccepts | PaymentOperations.Api/Services/IPaymentService.cs:93-97 | an accepted reason written in any mix of cases becomes its lower-case form |
| PaymentService.RefundOptionsFor | PaymentOperations.Api/Services/IPaymentService.cs:88-100 | the intent id and the optional amount pass through unchanged, with the normalised reason |
| PaymentService.RefundPayment | PaymentOperations.Api/Services/IPaymentService.cs:84-116 | the refund is answered exactly when the processor answers, with its id, status, amount and currency, and otherwise throws "Error refunding payment: <message>" |
| PaymentService.PaymentMethodOptionsFor | PaymentOperations.Api/Services/IPaymentService.cs:128-135 | a payment method is always requested with type "card" and the given token |
| PaymentService.CreatePaymentMethod | PaymentOperations.Api/Services/IPaymentService.cs:118-154 | a null or empty token throws "Payment token is required.", and that exception is not rewrapped; a rejection throws "Error creating payment method: <message>"; a method without card details throws `NullReferenceException`; otherwise the card's fields are copied |
| PaymentService.MissingTokenConsultsNoProcessor | PaymentOperations.Api/Services/IPaymentService.cs:123-126 | with a missing token, the outcome is the same whatever the processor would answer, so the processor is not consulted |
| PaymentPlansController.ValidatePlanRequest | PaymentOperations.Api/Controllers/PaymentPlansController.cs:19-37 | a request passes exactly when total > 0, count > 0 and both ids are non-empty; otherwise the first failing check in the fixed order gives its message |
| PaymentPlansController.ValidatedPlanFailsOnlyAtProcessor | PaymentOperations.Api/Controllers/PaymentPlansController.cs:39 | for a request that passes the checks, every request but the last was answered, the plan service fails only with the last request's rejection wrapped, and a completed plan reports the request's count, n records and the base amount |
| PaymentPlansController.CreatePaymentPlan | PaymentOperations.Api/Controllers/PaymentPlansController.cs:14-47 | a failing check gives 400 with its message and sends the processor nothing; otherwise the answer and the history are those of the plan service, with any exception answered by 500 |
| PaymentsController.CreatePaymentIntent | PaymentOperations.Api/Controllers/PaymentsController.cs:14-33 | the answer is 400 "Amount must be greater than 0" exactly when the amount is not positive, and otherwise the service's result as 200 or 500 |
| PaymentsController.CreatePaymentMethod | PaymentOperations.Api/Controllers/PaymentsController.cs:36-54 | the answer is 400 "Payment token is required" exactly when the token is null or empty, and otherwise the service's result |
| PaymentsController.ServiceTokenCheckUnreachable | PaymentOperations.Api/Controllers/PaymentsController.cs:41-44 | through the endpoint, the service's own token exception never reaches the client |
| PaymentsController.ConfirmPaymentIntent | PaymentOperations.Api/Controllers/PaymentsController.cs:58-82 | a missing intent id is reported before a missing payment method id; the service runs exactly when both are given |
| PaymentsController.RefundPayment | PaymentOperations.Api/Controllers/PaymentsController.cs:85-103 | the answer is 400 exactly when the intent id is null or empty, and otherwise the service's result |
| PaymentsController.RefundChecksOnlyIntent | PaymentOperations.Api/Controllers/PaymentsController.cs:90-95 | for a given intent id, no amount and no reason makes the refund endpoint answer 400 |

## Left out

- Logging, `async`/`await` and the `Task` plumbing. No decision depends on them, and the log text is not modelled.
- The processor services (`PaymentIntentService`, `RefundService`, `PaymentMethodService`). They are network calls. Each is an arbitrary answer, or a rejection that stands for a thrown `StripeException`, given as a parameter or by the oracle `respond`.
- Processor calls are assumed to fail only with `StripeException`, which is the only exception the services catch (IPaymentPlanService.cs:92 and IPaymentService.cs:50, 78, 112, 150). Any other exception from a processor call, such as a cancelled task, would escape unwrapped, and the model does not represent it. These failure clauses depend on the assumption: PlanRequests, PlanIsRun and ValidatedPlanFailsOnlyAtProcessor (a failure is a wrapped rejection), and the `Err` clauses of PaymentService.CreatePaymentIntent, ConfirmPaymentIntent, RefundPayment and CreatePaymentMethod.
- `EventUtility.ConstructEvent`. Its signature and timestamp scheme is a foreign library call. It is the parameter `construct`, which yields an event or throws.
- `Guid.NewGuid()`. It is nondeterministic, so the GUID's text is an input. Its "N" format is not modelled.
- PaymentOperations.Api/Program.cs, which holds dependency injection, CORS and start-up. It is not part of this model.
- PaymentOperations.Api/Controllers/WebhooksController.cs, which reads the stream, the header and the configuration. It is not part of this model.
- Model binding of request bodies, including a null body. The HTTP status codes are represented only by the three `ActionResult` cases.
- The `CreatePaymentMethodRequest` DTO as shown has no `Token` property, but the service and the controller read one. The model gives the request an optional token and leaves out the card and billing details, which nothing reads.
- PaymentService.ToLower: it folds only the letters A to Z, and assumes a culture in which A to Z fold to a to z, such as the invariant culture. The culture-sensitive `ToLower` of .NET also folds other letters, and in some cultures a non-ASCII letter folds to an ASCII one (for example, the dotted capital I). In a Turkish or Azerbaijani culture it folds the capital I to the dotless ı (U+0131), so the code normalises "DUPLICATE" to null where the model gives "duplicate".
- DotNet.ParseInt32: it models `int.Parse` with the invariant culture and ASCII digits only. Culture-specific signs and trailing NUL characters are left out.
- DotNet.DictionaryOf: the keys written here are always distinct, so it does not model the exception `Dictionary.Add` throws for a duplicate key.
- The exception messages of the runtime are the English .NET texts. The inner exception that `ApplicationException` wraps is not modelled.
- A null event type, null event data, null metadata and null metadata values are not modelled. Metadata values are non-null strings.
- The idempotence of webhook handling is not a separate lemma. `ProcessWebhook` is a function of its inputs, so the same event always gets the same response.
- The processor's own rules, such as a minimum charge, are not modelled. For example, a plan of 2 over 3 installments requests the amounts [0, 0, 2].
