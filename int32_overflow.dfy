/**
 The service's totals as Java computes them: every count, sum and product is a
 32-bit `int`, so a large purchase wraps around. The rest of the model uses
 mathematical integers (module Totals); this module shows where the two part
 ways and proves that, with no negative counts, they agree whenever the amount
 to pay fits in an `int`.
 */
module Int32Overflow {
  import opened Wrappers
  import opened Domain
  import opened Totals
  import opened TicketService

  const Modulus: int := 0x1_0000_0000
  const MinInt: int := -0x8000_0000
  const MaxInt: int := 0x7FFF_FFFF

  /** Java's `int` arithmetic: the mathematical result reduced into [MinInt, MaxInt]. */
  function Wrap(x: int): (r: int)
    ensures MinInt <= r <= MaxInt
    ensures (x - r) % Modulus == 0
    ensures MinInt <= x <= MaxInt ==> r == x
  {
    (x - MinInt) % Modulus + MinInt
  }

  /** Two integers that differ by a multiple of 2^32 wrap to the same `int`. */
  lemma WrapCongruent(a: int, b: int)
    requires (a - b) % Modulus == 0
    ensures Wrap(a) == Wrap(b)
  {
    var k := (a - b) / Modulus;
    assert a - MinInt == (b - MinInt) + k * Modulus;
  }

  /** IntStream.sum: a left-to-right reduction with wrapping `int` addition. */
  function Sum32(acc: int, xs: seq<int>): (r: int)
    ensures MinInt <= acc <= MaxInt ==> MinInt <= r <= MaxInt
    decreases |xs|
  {
    if xs == [] then acc else Sum32(Wrap(acc + xs[0]), xs[1..])
  }

  /** Wrapping at every addition gives the wrapped mathematical sum. */
  lemma {:induction false} Sum32IsWrappedSum(acc: int, xs: seq<int>)
    requires MinInt <= acc <= MaxInt
    ensures Sum32(acc, xs) == Wrap(acc + Sum(xs))
    decreases |xs|
  {
    if xs != [] {
      Sum32IsWrappedSum(Wrap(acc + xs[0]), xs[1..]);
      WrapCongruent(Wrap(acc + xs[0]) + Sum(xs[1..]), acc + Sum(xs));
    }
  }

  /** The number of tickets of one type, as the stream pipeline computes it in `int`. */
  function TicketsOf32(reqs: seq<TicketTypeRequest>, t: TicketType): (r: int)
    ensures MinInt <= r <= MaxInt
    ensures (r - TicketsOf(reqs, t)) % Modulus == 0
  {
    Sum32IsWrappedSum(0, Counts(OfType(reqs, t)));
    Sum32(0, Counts(OfType(reqs, t)))
  }

  /** Two integers congruent modulo 2^32 differ by a multiple of it. */
  lemma CongruentOffset(a: int, b: int) returns (k: int)
    requires (a - b) % Modulus == 0
    ensures a == b + k * Modulus
  {
    k := (a - b) / Modulus;
  }

  /** A multiple of 2^32 is congruent to zero. */
  lemma MultipleCongruent(k: int)
    ensures (k * Modulus) % Modulus == 0
  {
  }

  /** The 32-bit seats and amount of a purchase are the true ones, wrapped. */
  lemma TotalsOf32Wrapped(reqs: seq<TicketTypeRequest>)
    ensures Wrap(TicketsOf32(reqs, Adult) + TicketsOf32(reqs, Child)) == Wrap(SeatsFor(reqs))
    ensures Wrap(Wrap(TicketsOf32(reqs, Adult) * AdultTicketPrice) + Wrap(TicketsOf32(reqs, Child) * ChildTicketPrice))
         == Wrap(AmountFor(reqs))
  {
    var adult, child := TicketsOf(reqs, Adult), TicketsOf(reqs, Child);
    WrappedTotals(TicketsOf32(reqs, Adult), TicketsOf32(reqs, Child), adult, child);
    assert SeatsFor(reqs) == adult + child;
    assert AmountFor(reqs) == adult * AdultTicketPrice + child * ChildTicketPrice;
  }

  lemma WrappedTotals(adult32: int, child32: int, adult: int, child: int)
    requires (adult32 - adult) % Modulus == 0 && (child32 - child) % Modulus == 0
    ensures Wrap(adult32 + child32) == Wrap(adult + child)
    ensures Wrap(Wrap(adult32 * AdultTicketPrice) + Wrap(child32 * ChildTicketPrice))
         == Wrap(adult * AdultTicketPrice + child * ChildTicketPrice)
  {
    var ka := CongruentOffset(adult32, adult);
    var kc := CongruentOffset(child32, child);
    assert adult32 + child32 - (adult + child) == (ka + kc) * Modulus;
    MultipleCongruent(ka + kc);
    WrapCongruent(adult32 + child32, adult + child);
    var x, y := adult32 * AdultTicketPrice, child32 * ChildTicketPrice;
    var kx := CongruentOffset(Wrap(x), x);
    var ky := CongruentOffset(Wrap(y), y);
    var z := Wrap(x) + Wrap(y);
    assert z - (adult * AdultTicketPrice + child * ChildTicketPrice) == (kx + ky + 20 * ka + 10 * kc) * Modulus;
    MultipleCongruent(kx + ky + 20 * ka + 10 * kc);
    WrapCongruent(z, adult * AdultTicketPrice + child * ChildTicketPrice);
  }

  /** The checks and totals of the service, with the original's 32-bit arithmetic. */
  function ValidateAsWritten(user: Option<User>, reqs: seq<TicketTypeRequest>): (v: Validation)
    ensures v.Accepted? <==> user.Some? && reqs != [] && TicketsOf32(reqs, Adult) > 0
    ensures v.Rejected? ==>
      v.errorMessage == if user.None? || reqs == [] then InvalidPurchaseRequest else NoAdultTickets
  {
    if reqs == [] || user.None? then
      Rejected(InvalidPurchaseRequest)
    else
      var adultTickets := TicketsOf32(reqs, Adult);
      if adultTickets > 0 then
        var childTickets := TicketsOf32(reqs, Child);
        var totalSeatsToAllocate := Wrap(adultTickets + childTickets);
        var totalAmountToPay := Wrap(Wrap(adultTickets * AdultTicketPrice) + Wrap(childTickets * ChildTicketPrice));
        Accepted(Order(user.value.accountId, totalAmountToPay, totalSeatsToAllocate))
      else
        Rejected(NoAdultTickets)
  }

  /** An accepted order carries the true amount and seat count, wrapped into an `int`. */
  lemma {:induction false} AsWrittenTotalsWrap(user: Option<User>, reqs: seq<TicketTypeRequest>)
    ensures ValidateAsWritten(user, reqs).Accepted? ==>
      ValidateAsWritten(user, reqs).order == Order(user.value.accountId, Wrap(AmountFor(reqs)), Wrap(SeatsFor(reqs)))
  {
    TotalsOf32Wrapped(reqs);
  }

  /**
   With no negative counts and an amount to pay that fits in an `int`, the
   32-bit computation and the mathematical one agree.
   */
  lemma AsWrittenAgreesWithoutOverflow(user: Option<User>, reqs: seq<TicketTypeRequest>)
    requires NonNegativeCounts(reqs)
    requires EntrywiseAmount(reqs) <= MaxInt
    ensures ValidateAsWritten(user, reqs) == Validate(user, reqs)
  {
    if reqs != [] && user.Some? {
      AmountIsEntrywise(reqs);
      TicketsOf32Agrees(reqs, Adult);
      TicketsOf32Agrees(reqs, Child);
      TotalsFit(TicketsOf(reqs, Adult), TicketsOf(reqs, Child));
    }
  }

  lemma TicketsOf32Agrees(reqs: seq<TicketTypeRequest>, t: TicketType)
    requires 0 <= TicketsOf(reqs, t) <= MaxInt
    ensures TicketsOf32(reqs, t) == TicketsOf(reqs, t)
  {
    Sum32IsWrappedSum(0, Counts(OfType(reqs, t)));
  }

  lemma TotalsFit(adult: int, child: int)
    requires 0 <= adult && 0 <= child
    requires adult * AdultTicketPrice + child * ChildTicketPrice <= MaxInt
    ensures 0 <= adult <= MaxInt && 0 <= child <= MaxInt
    ensures Wrap(adult + child) == adult + child
    ensures Wrap(Wrap(adult * AdultTicketPrice) + Wrap(child * ChildTicketPrice)) == adult * AdultTicketPrice + child * ChildTicketPrice
  {
  }

  /** One request for 107374183 adult tickets: the original charges a negative amount. */
  lemma NegativeAmountAsWritten()
    ensures ValidateAsWritten(Some(User(1)), [TicketTypeRequest(Adult, 107374183)])
      == Accepted(Order(1, -2147483636, 107374183))
    ensures Validate(Some(User(1)), [TicketTypeRequest(Adult, 107374183)])
      == Accepted(Order(1, 2147483660, 107374183))
  {
    var reqs := [TicketTypeRequest(Adult, 107374183)];
    TicketsOfSingle(reqs[0], Adult);
    TicketsOfSingle(reqs[0], Child);
    assert OfType(reqs, Adult) == reqs;
    assert OfType(reqs, Child) == [];
    assert Counts(reqs) == [107374183];
  }

  /** Two requests for 2147483647 adult tickets each: the original finds no adult ticket. */
  lemma AdultsRejectedAsWritten()
    ensures ValidateAsWritten(Some(User(1)), [TicketTypeRequest(Adult, 2147483647), TicketTypeRequest(Adult, 2147483647)])
      == Rejected(NoAdultTickets)
    ensures Validate(Some(User(1)), [TicketTypeRequest(Adult, 2147483647), TicketTypeRequest(Adult, 2147483647)]).Accepted?
  {
    var x := TicketTypeRequest(Adult, 2147483647);
    var reqs := [x, x];
    assert TicketsOf32(reqs, Adult) == -2 by {
      assert OfType(reqs, Adult) == reqs;
      assert Counts(reqs) == [2147483647, 2147483647];
    }
    assert TicketsOf(reqs, Adult) == 4294967294 by {
      AddedNotOverwritten([x], Adult, 2147483647);
      TicketsOfSingle(x, Adult);
    }
  }

}
