/** Pricing of a ticket request: each entry with a positive quantity costs its
    category's unit price times its quantity; entries with a zero or negative
    quantity are dropped one at a time, before anything is summed. Pricing
    validates nothing and is defined for every sequence of entries. */
module TicketPricing {
  import opened TicketTypes
  import opened Permutations

  /** The fixed price table, looked up by exhaustive match so that no
      category can be missing. Only infants are free, and no ticket costs
      more than an adult's. */
  function UnitPrice(t: TicketType): (p: nat)
    ensures p == 0 <==> t == Infant
    ensures p <= 20
  {
    match t
    case Infant => 0
    case Child => 10
    case Adult => 20
  }

  lemma PricingTable()
    ensures UnitPrice(Infant) == 0 && UnitPrice(Child) == 10 && UnitPrice(Adult) == 20
  {
  }

  /** What one entry adds to the total once the filter has been applied. */
  function EntryPrice(e: TicketTypeRequest): (p: int)
    ensures p >= 0
  {
    if e.noOfTickets > 0 then UnitPrice(e.ticketType) * e.noOfTickets else 0
  }

  /** The total price of a request: filter, multiply, sum. */
  function PriceTickets(reqs: seq<TicketTypeRequest>): (total: int)
    ensures total >= 0
  {
    if reqs == [] then 0 else EntryPrice(reqs[0]) + PriceTickets(reqs[1..])
  }

  /** Sum of the positive quantities of the entries of category `t`: how many
      tickets of that category the pricing filter lets through. */
  function PositiveCount(t: TicketType, reqs: seq<TicketTypeRequest>): (n: int)
    ensures n >= 0
  {
    if reqs == [] then 0
    else (if reqs[0].ticketType == t && reqs[0].noOfTickets > 0 then reqs[0].noOfTickets else 0)
         + PositiveCount(t, reqs[1..])
  }

  /** A single entry costs unit price times quantity when its quantity is
      positive and nothing otherwise. */
  lemma PriceSingle(e: TicketTypeRequest)
    ensures e.noOfTickets > 0 ==> PriceTickets([e]) == UnitPrice(e.ticketType) * e.noOfTickets
    ensures e.noOfTickets <= 0 ==> PriceTickets([e]) == 0
  {
  }

  /** Entries with a non-positive quantity contribute nothing, whatever their
      category; in particular the empty request costs 0. */
  lemma {:induction false} PriceNonPositive(reqs: seq<TicketTypeRequest>)
    requires forall i :: 0 <= i < |reqs| ==> reqs[i].noOfTickets <= 0
    ensures PriceTickets(reqs) == 0
  {
    if reqs != [] {
      PriceNonPositive(reqs[1..]);
    }
  }

  /** Price is additive over concatenation. */
  lemma {:induction false} PriceConcat(a: seq<TicketTypeRequest>, b: seq<TicketTypeRequest>)
    ensures PriceTickets(a + b) == PriceTickets(a) + PriceTickets(b)
  {
    if a == [] {
      assert a + b == b;
    } else {
      assert (a + b)[0] == a[0];
      assert (a + b)[1..] == a[1..] + b;
      PriceConcat(a[1..], b);
    }
  }

  /** Price does not depend on the order of the entries. */
  lemma {:induction false} PricePermutation(a: seq<TicketTypeRequest>, b: seq<TicketTypeRequest>)
    requires multiset(a) == multiset(b)
    ensures PriceTickets(a) == PriceTickets(b)
  {
    if a == [] {
      assert |b| == |multiset(b)| == 0;
    } else {
      var i := PermutationStep(a, b);
      var x, left, right := a[0], b[..i], b[i + 1..];
      PricePermutation(a[1..], left + right);
      assert a == [x] + a[1..];
      PriceConcat([x], a[1..]);
      assert b == left + ([x] + right);
      PriceConcat(left, [x] + right);
      PriceConcat([x], right);
      PriceConcat(left, right);
    }
  }

  /** Inserting (or removing) an infant entry anywhere never changes the price. */
  lemma InfantEntryFree(a: seq<TicketTypeRequest>, b: seq<TicketTypeRequest>, q: int)
    ensures PriceTickets(a + [TicketTypeRequest(Infant, q)] + b) == PriceTickets(a + b)
  {
    var inf := [TicketTypeRequest(Infant, q)];
    PriceConcat(a + inf, b);
    PriceConcat(a, inf);
    PriceConcat(a, b);
    PriceSingle(inf[0]);
  }

  /** An independent reading of the price: per category, the positive
      quantities that pass the filter times the unit price. */
  lemma {:induction false} PriceByType(reqs: seq<TicketTypeRequest>)
    ensures PriceTickets(reqs) ==
            UnitPrice(Adult) * PositiveCount(Adult, reqs)
            + UnitPrice(Child) * PositiveCount(Child, reqs)
            + UnitPrice(Infant) * PositiveCount(Infant, reqs)
  {
    if reqs != [] {
      PriceByType(reqs[1..]);
    }
  }

  /** The prices the service's own examples expect. */
  lemma PricingExamples()
    ensures PriceTickets([TicketTypeRequest(Adult, 1)]) == 20
    ensures PriceTickets([TicketTypeRequest(Child, 1)]) == 10
    ensures PriceTickets([TicketTypeRequest(Infant, 1)]) == 0
    ensures PriceTickets([]) == 0
    ensures PriceTickets([TicketTypeRequest(Adult, -1), TicketTypeRequest(Child, -1),
                          TicketTypeRequest(Infant, -1)]) == 0
    ensures PriceTickets([TicketTypeRequest(Adult, 10)]) == 200
    ensures PriceTickets([TicketTypeRequest(Child, 13)]) == 130
    ensures PriceTickets([TicketTypeRequest(Adult, 3), TicketTypeRequest(Child, 13)]) == 190
    ensures PriceTickets([TicketTypeRequest(Adult, 3), TicketTypeRequest(Child, 10),
                          TicketTypeRequest(Infant, 2)]) == 160
  {
  }

  /** Filtering is per entry, not per category after netting: a positive and a
      negative adult entry are not offset against each other. */
  lemma PerEntryFiltering()
    ensures PriceTickets([TicketTypeRequest(Adult, 2), TicketTypeRequest(Adult, -1)]) == 40
    ensures PriceTickets([TicketTypeRequest(Adult, 2 + -1)]) == 20
  {
  }
}
