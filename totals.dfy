/**
 The arithmetic of a purchase: the number of tickets of each type (the
 filter / mapToInt / sum pipeline over the requests), the seats to allocate and
 the amount to pay. Counts are mathematical integers here; the 32-bit
 behaviour of the original is modelled separately in Int32Overflow.
 */
module Totals {
  import opened Domain

  /** Unit prices. Infants are free. */
  const AdultTicketPrice: int := 20
  const ChildTicketPrice: int := 10

  /** The requests of type `t`, in their original order (the filter step). */
  function OfType(reqs: seq<TicketTypeRequest>, t: TicketType): (r: seq<TicketTypeRequest>)
    ensures |r| <= |reqs|
    ensures forall i :: 0 <= i < |r| ==> r[i].ticketType == t
    ensures forall x :: x in r <==> x in reqs && x.ticketType == t
  {
    if reqs == [] then []
    else if reqs[0].ticketType == t then [reqs[0]] + OfType(reqs[1..], t)
    else OfType(reqs[1..], t)
  }

  /** The ticket count of every request (the mapToInt step). */
  function Counts(reqs: seq<TicketTypeRequest>): (r: seq<int>)
    ensures |r| == |reqs|
    ensures forall i :: 0 <= i < |r| ==> r[i] == reqs[i].noOfTickets
  {
    seq(|reqs|, i requires 0 <= i < |reqs| => reqs[i].noOfTickets)
  }

  /** The sum of a sequence of integers (the sum step). */
  function Sum(xs: seq<int>): (r: int)
    ensures (forall i :: 0 <= i < |xs| ==> xs[i] >= 0) ==> r >= 0
    ensures (forall i :: 0 <= i < |xs| ==> xs[i] >= 0) ==> forall i :: 0 <= i < |xs| ==> xs[i] <= r
  {
    if xs == [] then 0 else xs[0] + Sum(xs[1..])
  }

  /** The number of tickets of type `t` asked for, over all requests. */
  function TicketsOf(reqs: seq<TicketTypeRequest>, t: TicketType): (r: int)
    ensures NonNegativeCounts(reqs) ==> r >= 0
  {
    var counts := Counts(OfType(reqs, t));
    assert NonNegativeCounts(reqs) ==> forall i :: 0 <= i < |counts| ==> counts[i] >= 0 by {
      if NonNegativeCounts(reqs) {
        forall i | 0 <= i < |counts|
          ensures counts[i] >= 0
        {
          assert OfType(reqs, t)[i] in reqs;
        }
      }
    }
    Sum(counts)
  }

  /** Seats to allocate: one per adult and per child ticket; infants sit on a lap. */
  function SeatsFor(reqs: seq<TicketTypeRequest>): (r: int)
    ensures NonNegativeCounts(reqs) ==> TicketsOf(reqs, Adult) <= r
  {
    TicketsOf(reqs, Adult) + TicketsOf(reqs, Child)
  }

  /**
   Amount to pay: the adult and child tickets at their unit prices. With no
   negative counts, every seat costs between the child and the adult price.
   */
  function AmountFor(reqs: seq<TicketTypeRequest>): (r: int)
    ensures NonNegativeCounts(reqs) ==> ChildTicketPrice * SeatsFor(reqs) <= r <= AdultTicketPrice * SeatsFor(reqs)
  {
    TicketsOf(reqs, Adult) * AdultTicketPrice + TicketsOf(reqs, Child) * ChildTicketPrice
  }

  /** Reference definitions, one request at a time: the price and seats of one ticket. */
  function PriceOf(t: TicketType): int
  {
    match t
    case Adult => AdultTicketPrice
    case Child => ChildTicketPrice
    case Infant => 0
  }

  function SeatsPerTicket(t: TicketType): int
  {
    match t
    case Adult => 1
    case Child => 1
    case Infant => 0
  }

  /** What each request costs on its own, added up in request order. */
  function EntrywiseAmount(reqs: seq<TicketTypeRequest>): int
  {
    if reqs == [] then 0
    else PriceOf(reqs[0].ticketType) * reqs[0].noOfTickets + EntrywiseAmount(reqs[1..])
  }

  /** How many seats each request needs on its own, added up in request order. */
  function EntrywiseSeats(reqs: seq<TicketTypeRequest>): int
  {
    if reqs == [] then 0
    else SeatsPerTicket(reqs[0].ticketType) * reqs[0].noOfTickets + EntrywiseSeats(reqs[1..])
  }

  predicate NonNegativeCounts(reqs: seq<TicketTypeRequest>)
  {
    forall i :: 0 <= i < |reqs| ==> reqs[i].noOfTickets >= 0
  }

  // ---------------------------------------------------------------------------
  // Lemmas

  lemma {:induction false} SumAppend(a: seq<int>, b: seq<int>)
    ensures Sum(a + b) == Sum(a) + Sum(b)
  {
    if a == [] {
      assert a + b == b;
    } else {
      assert (a + b)[1..] == a[1..] + b;
      SumAppend(a[1..], b);
    }
  }

  lemma {:induction false} OfTypeAppend(a: seq<TicketTypeRequest>, b: seq<TicketTypeRequest>, t: TicketType)
    ensures OfType(a + b, t) == OfType(a, t) + OfType(b, t)
  {
    if a == [] {
      assert a + b == b;
    } else {
      assert (a + b)[1..] == a[1..] + b;
      OfTypeAppend(a[1..], b, t);
    }
  }

  /**
   The filter keeps every request of type `t` as many times as it occurs, and
   nothing else.
   */
  lemma {:induction false} OfTypeMultiplicity(reqs: seq<TicketTypeRequest>, t: TicketType)
    ensures forall x :: multiset(OfType(reqs, t))[x] == if x.ticketType == t then multiset(reqs)[x] else 0
  {
    if reqs != [] {
      assert reqs == [reqs[0]] + reqs[1..];
      OfTypeMultiplicity(reqs[1..], t);
    }
  }

  /** The tickets of one type in two lists of requests put together are those of each list, added. */
  lemma TicketsOfAppend(a: seq<TicketTypeRequest>, b: seq<TicketTypeRequest>, t: TicketType)
    ensures TicketsOf(a + b, t) == TicketsOf(a, t) + TicketsOf(b, t)
  {
    OfTypeAppend(a, b, t);
    CountsAppend(OfType(a, t), OfType(b, t));
    SumAppend(Counts(OfType(a, t)), Counts(OfType(b, t)));
  }

  lemma CountsAppend(a: seq<TicketTypeRequest>, b: seq<TicketTypeRequest>)
    ensures Counts(a + b) == Counts(a) + Counts(b)
  {
  }

  /** A single request contributes its count to its own type and nothing to the others. */
  lemma TicketsOfSingle(x: TicketTypeRequest, t: TicketType)
    ensures TicketsOf([x], t) == if x.ticketType == t then x.noOfTickets else 0
  {
    assert [x][1..] == [];
    assert OfType([x], t) == if x.ticketType == t then [x] else [];
    assert Counts([x]) == [x.noOfTickets];
    assert Sum([x.noOfTickets]) == x.noOfTickets;
  }

  /** A further request of type `t` is added to the tickets already asked for, not substituted for them. */
  lemma AddedNotOverwritten(reqs: seq<TicketTypeRequest>, t: TicketType, n: int)
    ensures TicketsOf(reqs + [TicketTypeRequest(t, n)], t) == TicketsOf(reqs, t) + n
  {
    TicketsOfAppend(reqs, [TicketTypeRequest(t, n)], t);
    TicketsOfSingle(TicketTypeRequest(t, n), t);
  }

  /** Requests of other types can be inserted anywhere without changing the tickets of type `t`. */
  lemma OtherTypesIgnored(a: seq<TicketTypeRequest>, others: seq<TicketTypeRequest>, b: seq<TicketTypeRequest>, t: TicketType)
    requires forall i :: 0 <= i < |others| ==> others[i].ticketType != t
    ensures TicketsOf(a + others + b, t) == TicketsOf(a + b, t)
  {
    TicketsOfAppend(a + others, b, t);
    TicketsOfAppend(a, others, t);
    TicketsOfAppend(a, b, t);
    OfTypeNone(others, t);
  }

  lemma {:induction false} OfTypeNone(others: seq<TicketTypeRequest>, t: TicketType)
    requires forall i :: 0 <= i < |others| ==> others[i].ticketType != t
    ensures OfType(others, t) == []
  {
    if others != [] {
      OfTypeNone(others[1..], t);
    }
  }

  /** Taking one request out of a list takes its tickets out of the total. */
  lemma TicketsOfRemove(b: seq<TicketTypeRequest>, j: nat, t: TicketType)
    requires j < |b|
    ensures TicketsOf(b, t) == TicketsOf([b[j]], t) + TicketsOf(b[..j] + b[j + 1..], t)
  {
    assert b == b[..j] + [b[j]] + b[j + 1..];
    TicketsOfAppend(b[..j] + [b[j]], b[j + 1..], t);
    TicketsOfAppend(b[..j], [b[j]], t);
    TicketsOfAppend(b[..j], b[j + 1..], t);
  }

  lemma MultisetRemove(a: seq<TicketTypeRequest>, b: seq<TicketTypeRequest>, j: nat)
    requires multiset(a) == multiset(b) && a != [] && j < |b| && b[j] == a[0]
    ensures multiset(a[1..]) == multiset(b[..j] + b[j + 1..])
  {
    assert a == [a[0]] + a[1..];
    assert b == b[..j] + [b[j]] + b[j + 1..];
    assert multiset(a[1..]) == multiset(a) - multiset{a[0]};
    assert multiset(b[..j] + b[j + 1..]) == multiset(b) - multiset{b[j]};
  }

  /** The order of the requests does not matter: any rearrangement asks for the same tickets. */
  lemma {:induction false} TicketsOfPermutation(a: seq<TicketTypeRequest>, b: seq<TicketTypeRequest>, t: TicketType)
    requires multiset(a) == multiset(b)
    ensures TicketsOf(a, t) == TicketsOf(b, t)
  {
    if a == [] {
      assert |b| == |multiset(b)| == 0;
    } else {
      assert a[0] in multiset(b);
      var j :| 0 <= j < |b| && b[j] == a[0];
      MultisetRemove(a, b, j);
      TicketsOfPermutation(a[1..], b[..j] + b[j + 1..], t);
      assert a == [a[0]] + a[1..];
      TicketsOfAppend([a[0]], a[1..], t);
      TicketsOfRemove(b, j, t);
    }
  }

  /**
   With no negative counts, there are tickets of type `t` exactly when some
   request of that type asks for at least one.
   */
  lemma {:induction false} TicketsOfPositive(reqs: seq<TicketTypeRequest>, t: TicketType)
    requires NonNegativeCounts(reqs)
    ensures TicketsOf(reqs, t) > 0 <==> exists i :: 0 <= i < |reqs| && reqs[i].ticketType == t && reqs[i].noOfTickets > 0
  {
    if reqs != [] {
      var x, rest := reqs[0], reqs[1..];
      assert reqs == [x] + rest;
      TicketsOfAppend([x], rest, t);
      TicketsOfSingle(x, t);
      TicketsOfPositive(rest, t);
      if exists i :: 0 <= i < |reqs| && reqs[i].ticketType == t && reqs[i].noOfTickets > 0 {
        var i :| 0 <= i < |reqs| && reqs[i].ticketType == t && reqs[i].noOfTickets > 0;
        if i > 0 {
          assert rest[i - 1] == reqs[i];
        }
      }
      if exists i :: 0 <= i < |rest| && rest[i].ticketType == t && rest[i].noOfTickets > 0 {
        var i :| 0 <= i < |rest| && rest[i].ticketType == t && rest[i].noOfTickets > 0;
        assert reqs[i + 1] == rest[i];
      }
    }
  }

  /** The amount to pay is what each request costs at its type's unit price, infants free. */
  lemma {:induction false} AmountIsEntrywise(reqs: seq<TicketTypeRequest>)
    ensures AmountFor(reqs) == EntrywiseAmount(reqs)
  {
    if reqs != [] {
      var x, rest := reqs[0], reqs[1..];
      assert reqs == [x] + rest;
      TicketsOfAppend([x], rest, Adult);
      TicketsOfAppend([x], rest, Child);
      TicketsOfSingle(x, Adult);
      TicketsOfSingle(x, Child);
      AmountIsEntrywise(rest);
    }
  }

  /** The seats to allocate are one per adult or child ticket, none per infant ticket. */
  lemma {:induction false} SeatsAreEntrywise(reqs: seq<TicketTypeRequest>)
    ensures SeatsFor(reqs) == EntrywiseSeats(reqs)
  {
    if reqs != [] {
      var x, rest := reqs[0], reqs[1..];
      assert reqs == [x] + rest;
      TicketsOfAppend([x], rest, Adult);
      TicketsOfAppend([x], rest, Child);
      TicketsOfSingle(x, Adult);
      TicketsOfSingle(x, Child);
      SeatsAreEntrywise(rest);
    }
  }

  /** Infant requests, wherever they stand, change neither the seats nor the amount. */
  lemma InfantsNeitherSeatedNorCharged(a: seq<TicketTypeRequest>, infants: seq<TicketTypeRequest>, b: seq<TicketTypeRequest>)
    requires forall i :: 0 <= i < |infants| ==> infants[i].ticketType == Infant
    ensures SeatsFor(a + infants + b) == SeatsFor(a + b)
    ensures AmountFor(a + infants + b) == AmountFor(a + b)
  {
    OtherTypesIgnored(a, infants, b, Adult);
    OtherTypesIgnored(a, infants, b, Child);
  }

}
