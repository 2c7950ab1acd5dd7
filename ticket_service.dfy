/**
 The ticket service: it validates a purchase, works out the amount to pay and
 the seats to allocate, then calls the payment gateway and the seat
 reservation service, in that order, turning any failure into an
 invalid-purchase error that carries a message.

 The behaviour is given twice: as specification functions (Validate, Fulfil,
 Purchase) about which the lemmas below are proved, and as the class
 TicketServiceImpl, whose methods perform the calls one after the other and are
 proved to do what the specification functions say.
 */
module TicketService {
  import opened Wrappers
  import opened Domain
  import opened Totals

  /** The two messages the service itself produces. */
  const InvalidPurchaseRequest: string := "Invalid Purchase Request"
  const NoAdultTickets: string := "No Adult Tickets"

  /** A call made to one of the two third-party services. */
  datatype Call =
    | MakePayment(accountId: int, totalAmountToPay: int)
    | ReserveSeat(accountId: int, totalSeatsToAllocate: int)

  /** How a call to a third-party service ends: it returns, or it throws with a message. */
  datatype CallResult = Returned | Threw(message: string)

  /**
   A third-party service as the ticket service sees it: given an account and a
   quantity (an amount, or a number of seats), the call returns or throws.
   */
  type Service = (int, int) -> CallResult

  /** How a purchase ends: normally, or with an invalid-purchase error and its message. */
  datatype PurchaseResult = Purchased | InvalidPurchase(errorMessage: string)

  /** What a valid purchase asks of the third-party services. */
  datatype Order = Order(accountId: int, totalAmountToPay: int, totalSeatsToAllocate: int)

  datatype Validation = Accepted(order: Order) | Rejected(errorMessage: string)

  /** A result together with the calls made to the third-party services, in order. */
  datatype Run<T> = Run(result: T, calls: seq<Call>)

  /**
   The checks made before any third-party call, in their order: a purchaser
   and at least one request, then at least one adult ticket. An accepted
   purchase carries the amount to pay and the seats to allocate.
   */
  function Validate(user: Option<User>, reqs: seq<TicketTypeRequest>): (v: Validation)
    ensures v.Accepted? <==> user.Some? && reqs != [] && TicketsOf(reqs, Adult) > 0
    ensures v.Rejected? ==>
      v.errorMessage == if user.None? || reqs == [] then InvalidPurchaseRequest else NoAdultTickets
    ensures v.Accepted? ==>
      v.order.accountId == user.value.accountId &&
      v.order.totalAmountToPay == EntrywiseAmount(reqs) &&
      v.order.totalSeatsToAllocate == EntrywiseSeats(reqs)
  {
    if reqs == [] || user.None? then
      Rejected(InvalidPurchaseRequest)
    else if TicketsOf(reqs, Adult) > 0 then
      AmountIsEntrywise(reqs);
      SeatsAreEntrywise(reqs);
      Accepted(Order(user.value.accountId, AmountFor(reqs), SeatsFor(reqs)))
    else
      Rejected(NoAdultTickets)
  }

  /**
   Pay, then reserve: the reservation is asked for only once the payment has
   returned, and the first failure's message is passed on. A failed
   reservation leaves the payment made; nothing takes it back.
   */
  function Fulfil(payment: Service, reservation: Service, order: Order): (r: Run<CallResult>)
    ensures 1 <= |r.calls| <= 2 && r.calls[0] == MakePayment(order.accountId, order.totalAmountToPay)
    ensures |r.calls| == 2 <==> payment(order.accountId, order.totalAmountToPay) == Returned
    ensures |r.calls| == 2 ==> r.calls[1] == ReserveSeat(order.accountId, order.totalSeatsToAllocate)
    ensures r.result == Returned <==> |r.calls| == 2 && reservation(order.accountId, order.totalSeatsToAllocate) == Returned
    ensures r.result.Threw? ==>
      r.result.message == (if |r.calls| == 1 then payment(order.accountId, order.totalAmountToPay).message
                           else reservation(order.accountId, order.totalSeatsToAllocate).message)
  {
    var paid := payment(order.accountId, order.totalAmountToPay);
    if paid.Threw? then
      Run(Threw(paid.message), [MakePayment(order.accountId, order.totalAmountToPay)])
    else
      var reserved := reservation(order.accountId, order.totalSeatsToAllocate);
      Run(if reserved.Threw? then Threw(reserved.message) else Returned,
          [MakePayment(order.accountId, order.totalAmountToPay),
           ReserveSeat(order.accountId, order.totalSeatsToAllocate)])
  }

  /** A whole purchase: validation, then the third-party calls, with failures as messages. */
  function Purchase(payment: Service, reservation: Service, user: Option<User>, reqs: seq<TicketTypeRequest>): (r: Run<PurchaseResult>)
    ensures |r.calls| <= 2
    ensures r.calls != [] ==> user.Some? && reqs != [] && TicketsOf(reqs, Adult) > 0
    ensures r.result == Purchased ==> |r.calls| == 2
  {
    match Validate(user, reqs)
    case Rejected(message) => Run(InvalidPurchase(message), [])
    case Accepted(order) =>
      var fulfilled := Fulfil(payment, reservation, order);
      Run(if fulfilled.result.Threw? then InvalidPurchase(fulfilled.result.message) else Purchased,
          fulfilled.calls)
  }

  /**
   The ticket service object. Its two services are fixed when it is built;
   `calls` records every call it has made to them, in order, which is what
   an observer of the services can see.
   */
  class TicketServiceImpl {
    const paymentService: Service
    const reservationService: Service
    ghost var calls: seq<Call>

    constructor (paymentService: Service, reservationService: Service)
      ensures this.paymentService == paymentService
      ensures this.reservationService == reservationService
      ensures calls == []
    {
      this.paymentService := paymentService;
      this.reservationService := reservationService;
      calls := [];
    }

    method PurchaseTickets(user: Option<User>, reqs: seq<TicketTypeRequest>) returns (result: PurchaseResult)
      modifies this
      ensures result == Purchase(paymentService, reservationService, user, reqs).result
      ensures calls == old(calls) + Purchase(paymentService, reservationService, user, reqs).calls
    {
      if |reqs| == 0 || user.None? {
        assert Validate(user, reqs) == Rejected(InvalidPurchaseRequest);
        return InvalidPurchase(InvalidPurchaseRequest);
      }
      var adultTickets := TicketsOf(reqs, Adult);
      var childTickets;
      if adultTickets > 0 {
        childTickets := TicketsOf(reqs, Child);
      } else {
        assert Validate(user, reqs) == Rejected(NoAdultTickets);
        return InvalidPurchase(NoAdultTickets);
      }
      var totalSeatsToAllocate := adultTickets + childTickets;
      var totalAmountToPay := adultTickets * AdultTicketPrice + childTickets * ChildTicketPrice;
      assert Validate(user, reqs) == Accepted(Order(user.value.accountId, totalAmountToPay, totalSeatsToAllocate));
      var thirdParty := MakePaymentAndReserveSeats(user.value.accountId, totalAmountToPay, totalSeatsToAllocate);
      if thirdParty.Threw? {
        return InvalidPurchase(thirdParty.message);
      }
      return Purchased;
    }

    method MakePaymentAndReserveSeats(accountId: int, totalAmountToPay: int, totalSeatsToAllocate: int) returns (result: CallResult)
      modifies this
      ensures result == Fulfil(paymentService, reservationService, Order(accountId, totalAmountToPay, totalSeatsToAllocate)).result
      ensures calls == old(calls) + Fulfil(paymentService, reservationService, Order(accountId, totalAmountToPay, totalSeatsToAllocate)).calls
    {
      var paid := paymentService(accountId, totalAmountToPay);
      calls := calls + [MakePayment(accountId, totalAmountToPay)];
      if paid.Threw? {
        return Threw(paid.message);
      }
      var reserved := reservationService(accountId, totalSeatsToAllocate);
      calls := calls + [ReserveSeat(accountId, totalSeatsToAllocate)];
      if reserved.Threw? {
        // the payment already made is not rolled back
        return Threw(reserved.message);
      }
      return Returned;
    }
  }

  // ---------------------------------------------------------------------------
  // Properties of a purchase

  /**
   With no purchaser or no requests the purchase fails with "Invalid Purchase
   Request" and no service is called, whatever the requests hold: this check
   comes before the adult check.
   */
  lemma InvalidRequestComesFirst(payment: Service, reservation: Service, user: Option<User>, reqs: seq<TicketTypeRequest>)
    requires user.None? || reqs == []
    ensures Purchase(payment, reservation, user, reqs) == Run(InvalidPurchase(InvalidPurchaseRequest), [])
  {
  }

  /** A purchase without adult tickets fails with "No Adult Tickets" before any service is called. */
  lemma NoAdultTicketsRejected(payment: Service, reservation: Service, user: Option<User>, reqs: seq<TicketTypeRequest>)
    requires user.Some? && reqs != [] && TicketsOf(reqs, Adult) <= 0
    ensures Purchase(payment, reservation, user, reqs) == Run(InvalidPurchase(NoAdultTickets), [])
  {
  }

  /**
   A purchase succeeds exactly when it is valid and both services return, and
   then exactly one payment of the total amount and one reservation of the
   total seats are made, in that order.
   */
  lemma PurchasedIff(payment: Service, reservation: Service, user: Option<User>, reqs: seq<TicketTypeRequest>)
    ensures Purchase(payment, reservation, user, reqs).result == Purchased <==>
      user.Some? && reqs != [] && TicketsOf(reqs, Adult) > 0 &&
      payment(user.value.accountId, EntrywiseAmount(reqs)) == Returned &&
      reservation(user.value.accountId, EntrywiseSeats(reqs)) == Returned
    ensures Purchase(payment, reservation, user, reqs).result == Purchased ==>
      Purchase(payment, reservation, user, reqs).calls ==
        [MakePayment(user.value.accountId, EntrywiseAmount(reqs)), ReserveSeat(user.value.accountId, EntrywiseSeats(reqs))]
  {
  }

  /** A failed payment is reported with its own message, and no seat is reserved. */
  lemma PaymentFailureSkipsReservation(payment: Service, reservation: Service, user: Option<User>, reqs: seq<TicketTypeRequest>)
    requires Validate(user, reqs).Accepted?
    requires payment(user.value.accountId, AmountFor(reqs)).Threw?
    ensures Purchase(payment, reservation, user, reqs) ==
      Run(InvalidPurchase(payment(user.value.accountId, AmountFor(reqs)).message),
          [MakePayment(user.value.accountId, AmountFor(reqs))])
  {
    AmountIsEntrywise(reqs);
  }

  /**
   A failed reservation is reported with its own message, and the payment
   already made stays made: no call undoes it.
   */
  lemma ReservationFailureKeepsPayment(payment: Service, reservation: Service, user: Option<User>, reqs: seq<TicketTypeRequest>)
    requires Validate(user, reqs).Accepted?
    requires payment(user.value.accountId, AmountFor(reqs)) == Returned
    requires reservation(user.value.accountId, SeatsFor(reqs)).Threw?
    ensures Purchase(payment, reservation, user, reqs) ==
      Run(InvalidPurchase(reservation(user.value.accountId, SeatsFor(reqs)).message),
          [MakePayment(user.value.accountId, AmountFor(reqs)), ReserveSeat(user.value.accountId, SeatsFor(reqs))])
  {
    AmountIsEntrywise(reqs);
    SeatsAreEntrywise(reqs);
  }

  /**
   Whatever happens, the calls made are a prefix of "pay the amount, then
   reserve the seats": never more than one of each, never a reservation
   before or without a payment that returned.
   */
  lemma CallsFollowFixedOrder(payment: Service, reservation: Service, user: Option<User>, reqs: seq<TicketTypeRequest>)
    ensures var calls := Purchase(payment, reservation, user, reqs).calls;
      |calls| <= 2 &&
      (calls != [] ==> user.Some? && calls[0] == MakePayment(user.value.accountId, AmountFor(reqs))) &&
      (|calls| == 2 ==> calls[1] == ReserveSeat(user.value.accountId, SeatsFor(reqs)) &&
                        payment(user.value.accountId, AmountFor(reqs)) == Returned)
  {
    if Validate(user, reqs).Accepted? {
      AmountIsEntrywise(reqs);
      SeatsAreEntrywise(reqs);
    }
  }

  /**
   Two non-empty lists of requests with the same adult and child tickets make
   the same purchase: the same result and the same calls.
   */
  lemma SameTicketsSamePurchase(payment: Service, reservation: Service, user: Option<User>, a: seq<TicketTypeRequest>, b: seq<TicketTypeRequest>)
    requires a != [] && b != []
    requires TicketsOf(a, Adult) == TicketsOf(b, Adult) && TicketsOf(a, Child) == TicketsOf(b, Child)
    ensures Purchase(payment, reservation, user, a) == Purchase(payment, reservation, user, b)
  {
    assert Validate(user, a) == Validate(user, b) by {
      if user.Some? && TicketsOf(a, Adult) > 0 {
        AmountIsEntrywise(a);
        AmountIsEntrywise(b);
        SeatsAreEntrywise(a);
        SeatsAreEntrywise(b);
      }
    }
  }

  /** The order in which the requests are listed does not change the purchase. */
  lemma PurchaseIgnoresOrder(payment: Service, reservation: Service, user: Option<User>, a: seq<TicketTypeRequest>, b: seq<TicketTypeRequest>)
    requires multiset(a) == multiset(b)
    ensures Purchase(payment, reservation, user, a) == Purchase(payment, reservation, user, b)
  {
    assert |a| == |multiset(a)| == |multiset(b)| == |b|;
    if a != [] {
      TicketsOfPermutation(a, b, Adult);
      TicketsOfPermutation(a, b, Child);
      SameTicketsSamePurchase(payment, reservation, user, a, b);
    }
  }

  /**
   Infant requests added to a non-empty list change nothing: neither the
   outcome nor the amount paid nor the seats reserved.
   */
  lemma PurchaseIgnoresInfants(payment: Service, reservation: Service, user: Option<User>, a: seq<TicketTypeRequest>, infants: seq<TicketTypeRequest>, b: seq<TicketTypeRequest>)
    requires a + b != []
    requires forall i :: 0 <= i < |infants| ==> infants[i].ticketType == Infant
    ensures Purchase(payment, reservation, user, a + infants + b) == Purchase(payment, reservation, user, a + b)
  {
    OtherTypesIgnored(a, infants, b, Adult);
    OtherTypesIgnored(a, infants, b, Child);
    SameTicketsSamePurchase(payment, reservation, user, a + infants + b, a + b);
  }

  /**
   With no negative counts, a purchaser's non-empty request list is accepted
   exactly when it asks for at least one adult ticket, and then the amount is
   at least one adult's price and at least one seat is reserved.
   */
  lemma AcceptedIffAdultTicket(user: Option<User>, reqs: seq<TicketTypeRequest>)
    requires user.Some? && reqs != [] && NonNegativeCounts(reqs)
    ensures Validate(user, reqs).Accepted? <==>
      exists i :: 0 <= i < |reqs| && reqs[i].ticketType == Adult && reqs[i].noOfTickets > 0
    ensures Validate(user, reqs).Accepted? ==>
      Validate(user, reqs).order.totalAmountToPay >= AdultTicketPrice &&
      Validate(user, reqs).order.totalSeatsToAllocate >= 1
  {
    TicketsOfPositive(reqs, Adult);
    AmountIsEntrywise(reqs);
    SeatsAreEntrywise(reqs);
  }

  // ---------------------------------------------------------------------------
  // The service's own examples, with services that always return

  function AlwaysReturns(accountId: int, quantity: int): CallResult
  {
    Returned
  }

  /** Two adults, a child and an infant: 50 paid and 3 seats reserved. */
  lemma ExampleMixedTickets()
    ensures Purchase(AlwaysReturns, AlwaysReturns, Some(User(1)),
                     [TicketTypeRequest(Adult, 2), TicketTypeRequest(Child, 1), TicketTypeRequest(Infant, 1)])
      == Run(Purchased, [MakePayment(1, 50), ReserveSeat(1, 3)])
  {
    var reqs := [TicketTypeRequest(Adult, 2), TicketTypeRequest(Child, 1), TicketTypeRequest(Infant, 1)];
    assert TicketsOf(reqs, Adult) > 0 by {
      TicketsOfPositive(reqs, Adult);
      assert reqs[0].ticketType == Adult && reqs[0].noOfTickets > 0;
    }
    EntrywiseOfThree(reqs);
    assert Validate(Some(User(1)), reqs) == Accepted(Order(1, 50, 3));
  }

  /** Adult requests of 2, 1 and 3 are summed: 120 paid and 6 seats reserved. */
  lemma ExampleAdultsSummed()
    ensures Purchase(AlwaysReturns, AlwaysReturns, Some(User(1)),
                     [TicketTypeRequest(Adult, 2), TicketTypeRequest(Adult, 1), TicketTypeRequest(Adult, 3)])
      == Run(Purchased, [MakePayment(1, 120), ReserveSeat(1, 6)])
  {
    var reqs := [TicketTypeRequest(Adult, 2), TicketTypeRequest(Adult, 1), TicketTypeRequest(Adult, 3)];
    assert TicketsOf(reqs, Adult) > 0 by {
      TicketsOfPositive(reqs, Adult);
      assert reqs[0].ticketType == Adult && reqs[0].noOfTickets > 0;
    }
    EntrywiseOfThree(reqs);
    assert Validate(Some(User(1)), reqs) == Accepted(Order(1, 120, 6));
  }

  lemma EntrywiseOfThree(reqs: seq<TicketTypeRequest>)
    requires |reqs| == 3
    ensures EntrywiseAmount(reqs) ==
      PriceOf(reqs[0].ticketType) * reqs[0].noOfTickets + PriceOf(reqs[1].ticketType) * reqs[1].noOfTickets +
      PriceOf(reqs[2].ticketType) * reqs[2].noOfTickets
    ensures EntrywiseSeats(reqs) ==
      SeatsPerTicket(reqs[0].ticketType) * reqs[0].noOfTickets + SeatsPerTicket(reqs[1].ticketType) * reqs[1].noOfTickets +
      SeatsPerTicket(reqs[2].ticketType) * reqs[2].noOfTickets
  {
    var tail, last := reqs[1..], reqs[1..][1..];
    assert last == [reqs[2]] && last[1..] == [];
    assert EntrywiseAmount(last) == PriceOf(reqs[2].ticketType) * reqs[2].noOfTickets;
    assert EntrywiseAmount(tail) == PriceOf(reqs[1].ticketType) * reqs[1].noOfTickets + EntrywiseAmount(last);
    assert EntrywiseSeats(last) == SeatsPerTicket(reqs[2].ticketType) * reqs[2].noOfTickets;
    assert EntrywiseSeats(tail) == SeatsPerTicket(reqs[1].ticketType) * reqs[1].noOfTickets + EntrywiseSeats(last);
  }

  /** Two child tickets alone are refused, and nothing is paid or reserved. */
  lemma ExampleChildrenOnly()
    ensures Purchase(AlwaysReturns, AlwaysReturns, Some(User(1)), [TicketTypeRequest(Child, 2)])
      == Run(InvalidPurchase(NoAdultTickets), [])
  {
    TicketsOfSingle(TicketTypeRequest(Child, 2), Adult);
  }

  /** A negative child count is not refused: it lowers both the seats and the amount. */
  lemma ExampleNegativeChildCount()
    ensures Purchase(AlwaysReturns, AlwaysReturns, Some(User(1)),
                     [TicketTypeRequest(Adult, 1), TicketTypeRequest(Child, -5)])
      == Run(Purchased, [MakePayment(1, -30), ReserveSeat(1, -4)])
  {
    var reqs := [TicketTypeRequest(Adult, 1), TicketTypeRequest(Child, -5)];
    assert reqs == [reqs[0]] + [reqs[1]];
    TicketsOfAppend([reqs[0]], [reqs[1]], Adult);
    TicketsOfSingle(reqs[0], Adult);
    TicketsOfSingle(reqs[1], Adult);
  }

  /** What a caller of the class can rely on: the examples above, through the object. */
  method PurchaseThroughService()
  {
    var service := new TicketServiceImpl(AlwaysReturns, AlwaysReturns);
    var reqs := [TicketTypeRequest(Adult, 2), TicketTypeRequest(Child, 1), TicketTypeRequest(Infant, 1)];
    ExampleMixedTickets();
    var r := service.PurchaseTickets(Some(User(1)), reqs);
    assert r == Purchased && service.calls == [MakePayment(1, 50), ReserveSeat(1, 3)];
    InvalidRequestComesFirst(AlwaysReturns, AlwaysReturns, None, reqs);
    r := service.PurchaseTickets(None, reqs);
    assert r == InvalidPurchase(InvalidPurchaseRequest);
    assert service.calls == [MakePayment(1, 50), ReserveSeat(1, 3)];
  }

}
