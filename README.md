# Cinema ticket purchase service, modelled in Dafny

This project models the ticket service of a cinema booking exercise. The service does three things:
- It checks a purchase: there must be a purchaser, at least one ticket request, and at least one adult ticket.
- It adds up the adult, child and infant tickets over all the requests. Seats are one per adult or child ticket. The amount is 20 per adult and 10 per child. Infants are free and get no seat.
- It calls two third-party services in a fixed order: the payment gateway is charged first, then the seats are reserved. Any exception thrown by either reaches the caller as an invalid-purchase error that carries the exception's message.

Files:

- `domain.dfy`: the value objects. `Wrappers.Option` stands for a reference that may be null. `Domain` holds the ticket type, the ticket request and the user.
- `totals.dfy` (module `Totals`): the arithmetic. It holds the filter / mapToInt / sum pipeline that counts the tickets of one type, the seats and the amount, and per-request reference definitions of the seats and the amount. The lemmas prove several facts about the counts:
  - they add up over concatenation;
  - they do not depend on the order of the requests;
  - requests of other types are ignored;
  - the totals equal the per-request definitions.
- `ticket_service.dfy` (module `TicketService`): the service itself. `Validate`, `Fulfil` and `Purchase` are specification functions that give the outcome and the calls made to the services. The class `TicketServiceImpl` performs the calls one after another and records them in a ghost trace, `calls`. Each of its methods is proved to produce the result and the calls that the specification functions give. The lemmas state the rules:
  - the validation order;
  - no calls on a rejected purchase;
  - exactly one payment, then one reservation, on success;
  - no reservation after a failed payment;
  - no rollback after a failed reservation;
  - order and infant requests do not change the purchase.

  The lemmas also check the test suite's example purchases. `PurchaseThroughService` is a client that uses only the class's contract.
- `int32_overflow.dfy` (module `Int32Overflow`): the same validation and totals computed with Java's 32-bit `int` arithmetic, which wraps around. It is proved equal to the mathematical model whenever counts are non-negative and the amount fits in an `int`. Where it differs, the difference is shown with two concrete inputs (see Findings).

The third-party services are modelled as functions from (account, quantity) to "returned" or "threw with a message". A service object is built with its two services fixed, as the original's `final` fields are. The file `domain/TicketTypeRequest.java` is not part of this model. Its shape (a type and an `int` count) is taken from how the service uses it.

Counts are not restricted: a negative child count passes validation and lowers both seats and amount (`TicketService.ExampleNegativeChildCount`), as in the original. Properties that need non-negative counts take that as a hypothesis (`Totals.NonNegativeCounts`).

A purchase whose adult total is zero is refused, and so is one whose adult total is negative, because the code tests `adultTickets > 0`. The model does the same: `TicketsOf(reqs, Adult) <= 0` is refused.

## Model

| member | source | states |
|---|---|---|
| Totals.OfType | src/main/java/uk/gov/dwp/uc/pairtest/TicketServiceImpl.java:48-49 | the filtered requests are exactly the requests of the given type (membership both ways), never more than the input |
| Totals.Counts | src/main/java/uk/gov/dwp/uc/pairtest/TicketServiceImpl.java:50-55 | the counts mapped out of the requests: one per request, in order, each the request's own count |
| Totals.Sum | src/main/java/uk/gov/dwp/uc/pairtest/TicketServiceImpl.java:50 | a sum of non-negative counts is non-negative and at least each of its counts |
| Totals.TicketsOf | src/main/java/uk/gov/dwp/uc/pairtest/TicketServiceImpl.java:48-55 | with no negative counts, a type's total is never negative; its value is characterised by TicketsOfAppend and TicketsOfSingle below |
| Totals.SeatsFor | src/main/java/uk/gov/dwp/uc/pairtest/TicketServiceImpl.java:60 | with no negative counts, the seats are at least the adult tickets |
| Totals.AmountFor | src/main/java/uk/gov/dwp/uc/pairtest/TicketServiceImpl.java:62 | with no negative counts, the amount lies between 10 and 20 per seat |
| Totals.OfTypeMultiplicity | src/main/java/uk/gov/dwp/uc/pairtest/TicketServiceImpl.java:48-54 | the filter keeps every request of the type as often as it occurs, and drops every other request |
| Totals.TicketsOfAppend | src/main/java/uk/gov/dwp/uc/pairtest/TicketServiceImpl.java:48-55 | the tickets of a type in two request lists put together are the sum of each list's tickets |
| Totals.TicketsOfSingle | src/main/java/uk/gov/dwp/uc/pairtest/TicketServiceImpl.java:48-55 | one request adds its count to its own type and nothing to the others |
| Totals.AddedNotOverwritten | src/main/java/uk/gov/dwp/uc/pairtest/TicketServiceImpl.java:48-50 | a further request of a type adds its count to that type's total rather than replacing it |
| Totals.OtherTypesIgnored | src/main/java/uk/gov/dwp/uc/pairtest/TicketServiceImpl.java:48-55 | requests of other types, inserted anywhere, do not change a type's total |
| Totals.TicketsOfPermutation | src/main/java/uk/gov/dwp/uc/pairtest/TicketServiceImpl.java:48-55 | any rearrangement of the requests gives the same total for every type |
| Totals.TicketsOfPositive | src/main/java/uk/gov/dwp/uc/pairtest/TicketServiceImpl.java:48-52 | with no negative counts, a type's total is positive exactly when some request of that type asks for at least one ticket |
| Totals.AmountIsEntrywise | src/main/java/uk/gov/dwp/uc/pairtest/TicketServiceImpl.java:20-62 | the amount (20 per adult, 10 per child) equals the sum over requests of unit price times count, infants at price 0 |
| Totals.SeatsAreEntrywise | src/main/java/uk/gov/dwp/uc/pairtest/TicketServiceImpl.java:60 | the seats (adults plus children) equal the sum over requests of one seat per adult or child ticket and none per infant ticket |
| Totals.InfantsNeitherSeatedNorCharged | src/main/java/uk/gov/dwp/uc/pairtest/TicketServiceImpl.java:60-62 | infant requests, wherever inserted, change neither the seats nor the amount |
| TicketService.Validate | src/main/java/uk/gov/dwp/uc/pairtest/TicketServiceImpl.java:43-62 | "Invalid Purchase Request" exactly when the user or the requests are missing; "No Adult Tickets" exactly when they are present but the adult total is not positive; accepted otherwise, with the user's account, the per-request amount and the per-request seats |
| TicketService.Fulfil | src/main/java/uk/gov/dwp/uc/pairtest/TicketServiceImpl.java:79-91 | one or two calls: the payment of the amount first; the reservation of the seats exactly when the payment returned; success exactly when both returned; otherwise the message of the service that threw |
| TicketService.Purchase | src/main/java/uk/gov/dwp/uc/pairtest/TicketServiceImpl.java:40-70 | at most two calls, none unless the user and requests are present and the adult total is positive; success only after both calls (exact iff in PurchasedIff) |
| TicketService.TicketServiceImpl.constructor | src/main/java/uk/gov/dwp/uc/pairtest/TicketServiceImpl.java:25-29 | the two services are fixed at construction and no call has been made yet |
| TicketService.TicketServiceImpl.PurchaseTickets | src/main/java/uk/gov/dwp/uc/pairtest/TicketServiceImpl.java:40-70 | the result and the calls appended to the trace are those of the specification function Purchase (validation, then payment and reservation with failures passed on as messages) |
| TicketService.TicketServiceImpl.MakePaymentAndReserveSeats | src/main/java/uk/gov/dwp/uc/pairtest/TicketServiceImpl.java:79-91 | the result and the calls appended are those of Fulfil: pay, then reserve only if payment returned, first failure's message passed on, no rollback |
| TicketService.InvalidRequestComesFirst | src/main/java/uk/gov/dwp/uc/pairtest/TicketServiceImpl.java:43-46 | a missing user or an empty request list (or both) gives "Invalid Purchase Request" and no call, whatever the adult count |
| TicketService.NoAdultTicketsRejected | src/main/java/uk/gov/dwp/uc/pairtest/TicketServiceImpl.java:48-59 | a user with requests but no positive adult total gets "No Adult Tickets" and no call |
| TicketService.PurchasedIff | src/main/java/uk/gov/dwp/uc/pairtest/TicketServiceImpl.java:43-90 | a purchase succeeds exactly when it is valid and both services return, and then the calls are exactly one payment of the amount followed by one reservation of the seats |
| TicketService.PaymentFailureSkipsReservation | src/main/java/uk/gov/dwp/uc/pairtest/TicketServiceImpl.java:63-84 | a failed payment yields an error carrying the payment's message and the only call is that payment; no reservation |
| TicketService.ReservationFailureKeepsPayment | src/main/java/uk/gov/dwp/uc/pairtest/TicketServiceImpl.java:85-90 | a failed reservation yields an error carrying its message; the payment stays in the calls and no undo call follows |
| TicketService.CallsFollowFixedOrder | src/main/java/uk/gov/dwp/uc/pairtest/TicketServiceImpl.java:79-91 | every run makes at most two calls: first the payment of the amount, then (only after a successful payment) the reservation of the seats |
| TicketService.SameTicketsSamePurchase | src/main/java/uk/gov/dwp/uc/pairtest/TicketServiceImpl.java:48-64 | two non-empty request lists with equal adult and child totals make the same purchase (result and calls) |
| TicketService.PurchaseIgnoresOrder | src/main/java/uk/gov/dwp/uc/pairtest/TicketServiceImpl.java:48-55 | rearranging the requests does not change the purchase |
| TicketService.PurchaseIgnoresInfants | src/main/java/uk/gov/dwp/uc/pairtest/TicketServiceImpl.java:48-62 | inserting infant requests into a non-empty list does not change the outcome, the amount paid or the seats reserved |
| TicketService.AcceptedIffAdultTicket | src/main/java/uk/gov/dwp/uc/pairtest/TicketServiceImpl.java:31-59 | with non-negative counts, a user's non-empty purchase is accepted exactly when some adult request has a positive count, and then at least 20 is charged and at least one seat reserved |
| TicketService.ExampleMixedTickets | src/test/java/uk/gov/dwp/uc/pairtest/TicketServiceImplTest.java:36-42 | 2 adults, 1 child, 1 infant for account 1: payment of 50 then reservation of 3 seats, success |
| TicketService.ExampleAdultsSummed | src/test/java/uk/gov/dwp/uc/pairtest/TicketServiceImplTest.java:44-51 | adult requests of 2, 1 and 3: payment of 120 then reservation of 6 seats |
| TicketService.ExampleChildrenOnly | src/test/java/uk/gov/dwp/uc/pairtest/TicketServiceImplTest.java:53-59 | two child tickets alone: "No Adult Tickets", no call |
| TicketService.ExampleNegativeChildCount | src/main/java/uk/gov/dwp/uc/pairtest/TicketServiceImpl.java:52-62 | a negative child count is accepted and lowers the amount (-30) and the seats (-4) |
| Int32Overflow.Wrap | src/main/java/uk/gov/dwp/uc/pairtest/TicketServiceImpl.java:41 | a Java `int` result: in [-2^31, 2^31), congruent to the mathematical result modulo 2^32, unchanged when it already fits |
| Int32Overflow.Sum32 | src/main/java/uk/gov/dwp/uc/pairtest/TicketServiceImpl.java:50 | a wrapping `int` sum started from an `int` stays in the `int` range |
| Int32Overflow.Sum32IsWrappedSum | src/main/java/uk/gov/dwp/uc/pairtest/TicketServiceImpl.java:48-50 | the stream's wrapping left-to-right `int` sum equals the mathematical sum wrapped once |
| Int32Overflow.TicketsOf32 | src/main/java/uk/gov/dwp/uc/pairtest/TicketServiceImpl.java:48-55 | a type's 32-bit total is an `int` congruent modulo 2^32 to the true total |
| Int32Overflow.ValidateAsWritten | src/main/java/uk/gov/dwp/uc/pairtest/TicketServiceImpl.java:43-62 | the same checks and messages as Validate, but acceptance depends on the wrapped adult total being positive |
| Int32Overflow.TotalsOf32Wrapped | src/main/java/uk/gov/dwp/uc/pairtest/TicketServiceImpl.java:60-62 | the seats and amount computed in `int` from the wrapped totals are the true seats and amount wrapped once |
| Int32Overflow.AsWrittenTotalsWrap | src/main/java/uk/gov/dwp/uc/pairtest/TicketServiceImpl.java:43-62 | an order accepted by the 32-bit validation carries the user's account, the true amount wrapped and the true seats wrapped |
| Int32Overflow.AsWrittenAgreesWithoutOverflow | src/main/java/uk/gov/dwp/uc/pairtest/TicketServiceImpl.java:43-62 | with non-negative counts and an amount that fits in an `int`, the 32-bit validation gives exactly the mathematical one |
| Int32Overflow.NegativeAmountAsWritten | src/main/java/uk/gov/dwp/uc/pairtest/TicketServiceImpl.java:62 | one request for 107374183 adult tickets: the 32-bit amount is -2147483636 where 2147483660 is meant |
| Int32Overflow.AdultsRejectedAsWritten | src/main/java/uk/gov/dwp/uc/pairtest/TicketServiceImpl.java:48-58 | two requests for 2147483647 adult tickets: the 32-bit adult total is negative, so the purchase is refused with "No Adult Tickets" although the mathematical model accepts it |

## Left out

- Logging and the logger configuration in the constructor: they have no effect on the outcome.
- The internals of the payment gateway and the seat reservation service. Each is a function from (account, quantity) to "returned" or "threw with a message". So a service gives the same answer to the same arguments, and a service whose behaviour depends on its history is not captured.
- The two services are one trace in the model (`calls`), so the relative order of their calls is visible. The model does not record which Java object received each call, beyond the call's kind.
- Java exception mechanics: the checked third-party exception and the runtime invalid-purchase exception are modelled as `CallResult.Threw(message)` and `PurchaseResult.InvalidPurchase(errorMessage)`. A `null` exception message is not modelled.
- A `null` account id inside a non-null user is not modelled; the account id is an `int`, not a nullable `Long`. In the source, unboxing it for the payment call throws a `NullPointerException` inside the try at src/main/java/uk/gov/dwp/uc/pairtest/TicketServiceImpl.java:80. That exception is caught at line 81 and reaches the caller as an invalid-purchase error with the `NullPointerException`'s own message. No call reaches the payment service.
- A `null` request array is not modelled (the requests are a sequence). In the source, `ticketTypeRequests.length` at line 43 is read before the user is tested, so such a call throws a `NullPointerException` rather than reporting "Invalid Purchase Request".
- A `null` element among the requests is not modelled. In the source, it throws a `NullPointerException` inside the filter at line 49, which nothing catches.
- A service that throws a Java `Error` rather than an `Exception` is not modelled. The handlers at lines 81 and 86 catch only `Exception`, so such an error passes through uncaught and is not turned into an invalid-purchase error.
- TicketService.Validate, TicketService.TicketServiceImpl.PurchaseTickets and TicketService.TicketServiceImpl.MakePaymentAndReserveSeats compute with mathematical integers, not 32-bit `int`. The 32-bit behaviour is modelled separately, by `Int32Overflow.ValidateAsWritten`.
- The payment rollback that the source's comment mentions is not performed by the source, so the model does not perform it either (`TicketService.ReservationFailureKeepsPayment`).
- The distinction between a payment failure and a reservation failure is not kept in the result, as in the source: both surface only as the message.

## Findings

| source | as written | input that shows it | evidently intended | confidence | as-written member | corrected member |
|---|---|---|---|---|---|---|
| src/main/java/uk/gov/dwp/uc/pairtest/TicketServiceImpl.java:62 | the amount is `adultTickets * 20 + childTickets * 10` in 32-bit `int`, which wraps | one ADULT request of 107374183 tickets is charged -2147483636 | charge 20 per adult and 10 per child, never a negative amount for non-negative counts | medium; not executed | Int32Overflow.NegativeAmountAsWritten | TicketService.AcceptedIffAdultTicket |
| src/main/java/uk/gov/dwp/uc/pairtest/TicketServiceImpl.java:48-52 | the adult total is an `IntStream.sum()` in 32-bit `int`, which wraps | two ADULT requests of 2147483647 tickets each sum to -2 and are refused with "No Adult Tickets" | accept any purchase that asks for at least one adult ticket | medium; not executed | Int32Overflow.AdultsRejectedAsWritten | TicketService.AcceptedIffAdultTicket |
