/** The purchase side of the cinema ticket service: per-category counting of
    a request, the ordered chain of business rules, and the purchase operation
    that, only once every rule passes, asks for payment and then reserves
    seats. */
module TicketService {
  import opened TicketTypes
  import opened Permutations
  import opened TicketPricing

  /** The hard cap on the number of tickets in one purchase. */
  const MaxTickets: int := 20

  /** Sum of the quantities of all entries of category `t`; repeated entries
      of one category add up and negative quantities are not clamped. */
  function CountTicketsForType(t: TicketType, reqs: seq<TicketTypeRequest>): (n: int)
    ensures (forall i :: 0 <= i < |reqs| ==> reqs[i].ticketType != t) ==> n == 0
    ensures (forall i :: 0 <= i < |reqs| && reqs[i].ticketType == t ==> reqs[i].noOfTickets >= 0) ==> n >= 0
    ensures n <= PositiveCount(t, reqs)
  {
    if reqs == [] then 0
    else
      assert forall i :: 0 <= i < |reqs[1..]| ==> reqs[1..][i] == reqs[i + 1];
      (if reqs[0].ticketType == t then reqs[0].noOfTickets else 0) + CountTicketsForType(t, reqs[1..])
  }

  /** Seats to reserve: adults and children; infants sit on an adult's lap.
      A request of infants alone reserves no seat, and no more seats are
      reserved than adult and child tickets pass the price filter. */
  function Seats(reqs: seq<TicketTypeRequest>): (n: int)
    ensures (forall i :: 0 <= i < |reqs| ==> reqs[i].ticketType == Infant) ==> n == 0
    ensures n <= PositiveCount(Adult, reqs) + PositiveCount(Child, reqs)
  {
    CountTicketsForType(Adult, reqs) + CountTicketsForType(Child, reqs)
  }

  /** Why a purchase is rejected: one reason per check, distinguishable. */
  datatype Rejection =
    | InvalidAccountId
    | NegativeAdults
    | NegativeChildren
    | NegativeInfants
    | TooManyTickets
    | NoAccompanyingAdult
    | NotEnoughLaps

  datatype Outcome = Accepted | Rejected(reason: Rejection)

  /** The position of each check in the order the service runs them. */
  function Rank(r: Rejection): nat
  {
    match r
    case InvalidAccountId => 0
    case NegativeAdults => 1
    case NegativeChildren => 2
    case NegativeInfants => 3
    case TooManyTickets => 4
    case NoAccompanyingAdult => 5
    case NotEnoughLaps => 6
  }

  /** What each count rule forbids, on its own and independent of the order
      the rules are checked in. The account rule is not a count rule. */
  predicate CountRuleBroken(r: Rejection, adults: int, children: int, infants: int)
  {
    match r
    case InvalidAccountId => false
    case NegativeAdults => adults < 0
    case NegativeChildren => children < 0
    case NegativeInfants => infants < 0
    case TooManyTickets => adults + children + infants > MaxTickets
    case NoAccompanyingAdult => children + infants > 0 && adults == 0
    case NotEnoughLaps => infants > adults
  }

  /** `o` is what checking the count rules one by one in order decides: a
      rejection names a broken rule that no broken rule precedes, and an
      acceptance means that no rule is broken (so the request passes exactly
      when no rule is broken). */
  ghost predicate DecidedInOrder(o: Outcome, adults: int, children: int, infants: int)
  {
    && (o.Rejected? ==>
          && CountRuleBroken(o.reason, adults, children, infants)
          && forall r :: Rank(r) < Rank(o.reason) ==> !CountRuleBroken(r, adults, children, infants))
    && (o.Accepted? ==> forall r :: !CountRuleBroken(r, adults, children, infants))
  }

  /** The chain of count checks. */
  function ValidateTicketRequest(adults: int, children: int, infants: int): (o: Outcome)
    ensures DecidedInOrder(o, adults, children, infants)
  {
    if adults < 0 then Rejected(NegativeAdults)
    else if children < 0 then Rejected(NegativeChildren)
    else if infants < 0 then Rejected(NegativeInfants)
    else if adults + children + infants > MaxTickets then Rejected(TooManyTickets)
    else if children + infants > 0 && adults == 0 then Rejected(NoAccompanyingAdult)
    else if infants > adults then Rejected(NotEnoughLaps)
    else Accepted
  }

  /** The decision `purchaseTickets` takes before any side effect: an invalid
      account id is reported whatever the counts are; for a valid one the
      count rules decide, over the per-category sums. */
  function CheckPurchase(accountId: int, reqs: seq<TicketTypeRequest>): (o: Outcome)
    ensures o == Rejected(InvalidAccountId) <==> accountId < 1
    ensures accountId >= 1 ==>
              DecidedInOrder(o, CountTicketsForType(Adult, reqs), CountTicketsForType(Child, reqs),
                             CountTicketsForType(Infant, reqs))
  {
    if accountId < 1 then Rejected(InvalidAccountId)
    else
      ValidateTicketRequest(CountTicketsForType(Adult, reqs), CountTicketsForType(Child, reqs),
                            CountTicketsForType(Infant, reqs))
  }

  /** Acceptance, in the plain terms of the business rules. */
  lemma ValidationAccepts(adults: int, children: int, infants: int)
    ensures ValidateTicketRequest(adults, children, infants).Accepted? <==>
            && 0 <= adults && 0 <= children && 0 <= infants <= adults
            && adults + children + infants <= MaxTickets
            && (children + infants > 0 ==> adults >= 1)
  {
  }

  /** The negative-count checks run adult, child, infant, and all of them
      before the cap: a negative sum is reported whatever the total is. */
  lemma NegativeCountsFirst(adults: int, children: int, infants: int)
    ensures adults < 0 ==> ValidateTicketRequest(adults, children, infants) == Rejected(NegativeAdults)
    ensures adults >= 0 && children < 0 ==>
              ValidateTicketRequest(adults, children, infants) == Rejected(NegativeChildren)
    ensures adults >= 0 && children >= 0 && infants < 0 ==>
              ValidateTicketRequest(adults, children, infants) == Rejected(NegativeInfants)
  {
  }

  /** The cap is inclusive: a total of exactly 20 is never rejected by it,
      and any larger total of non-negative counts is. */
  lemma CapIsInclusive(adults: int, children: int, infants: int)
    requires adults >= 0 && children >= 0 && infants >= 0
    ensures adults + children + infants <= MaxTickets ==>
              ValidateTicketRequest(adults, children, infants) != Rejected(TooManyTickets)
    ensures adults + children + infants > MaxTickets ==>
              ValidateTicketRequest(adults, children, infants) == Rejected(TooManyTickets)
  {
  }

  /** Children or infants without any adult are reported as such, once the
      counts are non-negative and within the cap. */
  lemma DependantsNeedAdult(adults: int, children: int, infants: int)
    requires adults == 0 && children >= 0 && infants >= 0 && children + infants > 0
    requires children + infants <= MaxTickets
    ensures ValidateTicketRequest(adults, children, infants) == Rejected(NoAccompanyingAdult)
  {
  }

  /** More infants than adults is reported as too few laps, once every
      earlier rule has passed. */
  lemma InfantsNeedLaps(adults: int, children: int, infants: int)
    requires 1 <= adults < infants && children >= 0
    requires adults + children + infants <= MaxTickets
    ensures ValidateTicketRequest(adults, children, infants) == Rejected(NotEnoughLaps)
  {
  }

  /** Two different reasons are never tied in the checking order, so the
      contract of the chain fixes the reason it reports. */
  lemma RankDistinct(r: Rejection, s: Rejection)
    ensures Rank(r) == Rank(s) ==> r == s
  {
  }

  /** The contract of the validation chain fixes its outcome: two outcomes
      that are both decided in order for the same counts are the same. */
  lemma DecidedUnique(o1: Outcome, o2: Outcome, adults: int, children: int, infants: int)
    requires DecidedInOrder(o1, adults, children, infants)
    requires DecidedInOrder(o2, adults, children, infants)
    ensures o1 == o2
  {
  }

  /** The per-category count is additive over concatenation. */
  lemma {:induction false} CountConcat(t: TicketType, a: seq<TicketTypeRequest>, b: seq<TicketTypeRequest>)
    ensures CountTicketsForType(t, a + b) == CountTicketsForType(t, a) + CountTicketsForType(t, b)
  {
    if a == [] {
      assert a + b == b;
    } else {
      assert (a + b)[0] == a[0];
      assert (a + b)[1..] == a[1..] + b;
      CountConcat(t, a[1..], b);
    }
  }

  /** The per-category count does not depend on the order of the entries. */
  lemma {:induction false} CountPermutation(t: TicketType, a: seq<TicketTypeRequest>, b: seq<TicketTypeRequest>)
    requires multiset(a) == multiset(b)
    ensures CountTicketsForType(t, a) == CountTicketsForType(t, b)
  {
    if a == [] {
      assert |b| == |multiset(b)| == 0;
    } else {
      var i := PermutationStep(a, b);
      var x, left, right := a[0], b[..i], b[i + 1..];
      CountPermutation(t, a[1..], left + right);
      assert a == [x] + a[1..];
      CountConcat(t, [x], a[1..]);
      assert b == left + ([x] + right);
      CountConcat(t, left, [x] + right);
      CountConcat(t, [x], right);
      CountConcat(t, left, right);
    }
  }

  /** Splitting one entry into two of the same category changes no count. */
  lemma CountSplit(t: TicketType, a: seq<TicketTypeRequest>, b: seq<TicketTypeRequest>,
                   u: TicketType, q1: int, q2: int)
    ensures CountTicketsForType(t, a + [TicketTypeRequest(u, q1), TicketTypeRequest(u, q2)] + b)
         == CountTicketsForType(t, a + [TicketTypeRequest(u, q1 + q2)] + b)
  {
    var split := [TicketTypeRequest(u, q1), TicketTypeRequest(u, q2)];
    var whole := [TicketTypeRequest(u, q1 + q2)];
    CountConcat(t, a + split, b);
    CountConcat(t, a, split);
    CountConcat(t, a + whole, b);
    CountConcat(t, a, whole);
    assert split[1..][1..] == [];
    assert whole[1..] == [];
  }

  /** The outcome is a function of the account id and the three sums only. */
  lemma OutcomeDependsOnCounts(accountId: int, reqs1: seq<TicketTypeRequest>, reqs2: seq<TicketTypeRequest>)
    requires forall t :: CountTicketsForType(t, reqs1) == CountTicketsForType(t, reqs2)
    ensures CheckPurchase(accountId, reqs1) == CheckPurchase(accountId, reqs2)
  {
  }

  /** Reordering the entries changes neither the outcome nor the seat count. */
  lemma PurchasePermutation(accountId: int, a: seq<TicketTypeRequest>, b: seq<TicketTypeRequest>)
    requires multiset(a) == multiset(b)
    ensures CheckPurchase(accountId, a) == CheckPurchase(accountId, b)
    ensures Seats(a) == Seats(b)
  {
    forall t {
      CountPermutation(t, a, b);
    }
    OutcomeDependsOnCounts(accountId, a, b);
  }

  /** When no entry has a negative quantity, netting and filtering agree. */
  lemma {:induction false} CountOfNonNegative(t: TicketType, reqs: seq<TicketTypeRequest>)
    requires forall i :: 0 <= i < |reqs| ==> reqs[i].noOfTickets >= 0
    ensures CountTicketsForType(t, reqs) == PositiveCount(t, reqs)
  {
    if reqs != [] {
      CountOfNonNegative(t, reqs[1..]);
    }
  }

  /** What an accepted purchase reserves: every infant has an adult's lap,
      infants take no seat, and at most 20 tickets are issued. */
  lemma AcceptedSeats(accountId: int, reqs: seq<TicketTypeRequest>)
    requires CheckPurchase(accountId, reqs).Accepted?
    ensures accountId >= 1
    ensures 0 <= CountTicketsForType(Infant, reqs) <= CountTicketsForType(Adult, reqs) <= Seats(reqs)
    ensures Seats(reqs) + CountTicketsForType(Infant, reqs) <= MaxTickets
    ensures CountTicketsForType(Child, reqs) > 0 ==> CountTicketsForType(Adult, reqs) >= 1
  {
  }

  /** Inserting (or removing) an infant entry anywhere never changes the
      number of seats. */
  lemma InfantTakesNoSeat(a: seq<TicketTypeRequest>, b: seq<TicketTypeRequest>, q: int)
    ensures Seats(a + [TicketTypeRequest(Infant, q)] + b) == Seats(a + b)
  {
    var inf := [TicketTypeRequest(Infant, q)];
    assert inf[1..] == [];
    CountConcat(Adult, a + inf, b);
    CountConcat(Adult, a, inf);
    CountConcat(Adult, a, b);
    CountConcat(Child, a + inf, b);
    CountConcat(Child, a, inf);
    CountConcat(Child, a, b);
  }

  /** The charge against the seat-holding tickets: the price is at least the
      unit price of every adult and child ticket the netted counts give, and
      exactly that when no entry is negative. Because the price filter works
      per entry, negative entries can only make the charge larger. */
  lemma ChargeCoversCounts(reqs: seq<TicketTypeRequest>)
    ensures PriceTickets(reqs) >= UnitPrice(Adult) * CountTicketsForType(Adult, reqs)
                                  + UnitPrice(Child) * CountTicketsForType(Child, reqs)
    ensures (forall i :: 0 <= i < |reqs| ==> reqs[i].noOfTickets >= 0) ==>
            PriceTickets(reqs) == UnitPrice(Adult) * CountTicketsForType(Adult, reqs)
                                  + UnitPrice(Child) * CountTicketsForType(Child, reqs)
  {
    PricingTable();
    PriceByType(reqs);
    var adults, children := CountTicketsForType(Adult, reqs), CountTicketsForType(Child, reqs);
    var paidAdults, paidChildren := PositiveCount(Adult, reqs), PositiveCount(Child, reqs);
    assert PriceTickets(reqs) == 20 * paidAdults + 10 * paidChildren;
    if forall i :: 0 <= i < |reqs| ==> reqs[i].noOfTickets >= 0 {
      CountOfNonNegative(Adult, reqs);
      CountOfNonNegative(Child, reqs);
    }
  }

  /** An accepted purchase charged for more tickets than it reserves: one
      adult seat, two adult tickets paid for. */
  lemma AcceptedOvercharge()
    ensures var reqs := [TicketTypeRequest(Adult, 2), TicketTypeRequest(Adult, -1)];
            && CheckPurchase(1, reqs) == Accepted
            && Seats(reqs) == 1
            && PriceTickets(reqs) == 2 * UnitPrice(Adult)
  {
  }

  /** The account id is checked before any count: the outcomes the code
      gives for good and bad ids. */
  lemma AccountExamples()
    ensures CheckPurchase(3, [TicketTypeRequest(Adult, 4)]) == Accepted
    ensures CheckPurchase(0, [TicketTypeRequest(Adult, 3)]) == Rejected(InvalidAccountId)
    ensures CheckPurchase(-30, [TicketTypeRequest(Adult, 4)]) == Rejected(InvalidAccountId)
    ensures CheckPurchase(0, [TicketTypeRequest(Child, -5)]) == Rejected(InvalidAccountId)
  {
  }

  /** The outcomes the code gives under the dependant rules. */
  lemma DependantExamples()
    ensures CheckPurchase(3, [TicketTypeRequest(Adult, 1), TicketTypeRequest(Child, 2),
                              TicketTypeRequest(Infant, 1)]) == Accepted
    ensures CheckPurchase(3, [TicketTypeRequest(Adult, 0), TicketTypeRequest(Child, 2),
                              TicketTypeRequest(Infant, 1)]) == Rejected(NoAccompanyingAdult)
    ensures CheckPurchase(3, [TicketTypeRequest(Adult, 1), TicketTypeRequest(Child, 2),
                              TicketTypeRequest(Infant, 2)]) == Rejected(NotEnoughLaps)
  {
  }

  /** The outcomes the code gives for negative counts and the 20-ticket cap:
      entries of one category are summed before the cap is applied. */
  lemma CountExamples()
    ensures CheckPurchase(3, [TicketTypeRequest(Adult, -4)]) == Rejected(NegativeAdults)
    ensures CheckPurchase(3, [TicketTypeRequest(Adult, 6), TicketTypeRequest(Adult, 10)]) == Accepted
    ensures CheckPurchase(3, [TicketTypeRequest(Adult, 16), TicketTypeRequest(Adult, 10)])
         == Rejected(TooManyTickets)
    ensures CheckPurchase(1, [TicketTypeRequest(Adult, 21)]) == Rejected(TooManyTickets)
    ensures CheckPurchase(1, [TicketTypeRequest(Adult, 20)]) == Accepted
  {
  }

  /** The seats the code reserves for accepted purchases: repeated entries of
      one category add up, and infants take no seat. */
  lemma SeatExamples()
    ensures var reqs := [TicketTypeRequest(Adult, 2)];
            CheckPurchase(100, reqs) == Accepted && Seats(reqs) == 2
    ensures var reqs := [TicketTypeRequest(Adult, 2), TicketTypeRequest(Adult, 2)];
            CheckPurchase(100, reqs) == Accepted && Seats(reqs) == 4
    ensures var reqs := [TicketTypeRequest(Adult, 2), TicketTypeRequest(Child, 4),
                         TicketTypeRequest(Infant, 2)];
            CheckPurchase(100, reqs) == Accepted && Seats(reqs) == 6
    ensures var reqs := [TicketTypeRequest(Adult, 2), TicketTypeRequest(Child, 4),
                         TicketTypeRequest(Child, 3), TicketTypeRequest(Infant, 2)];
            CheckPurchase(100, reqs) == Accepted && Seats(reqs) == 9
  {
  }

  /** A call made to one of the two outside services. */
  datatype Call = MakePayment(accountId: int, amount: int) | ReserveSeat(accountId: int, seats: int)

  /** The purchase service. The payment and seat-reservation services are
      outside this model: every call made to them is appended to `calls`.
      The pricing service is injected as a function. */
  class TicketServiceImpl {
    const pricing: seq<TicketTypeRequest> -> int
    ghost var calls: seq<Call>

    constructor (pricing: seq<TicketTypeRequest> -> int)
      ensures this.pricing == pricing && calls == []
    {
      this.pricing := pricing;
      calls := [];
    }

    /** Validates, then pays, then reserves; on rejection nothing is called. */
    method PurchaseTickets(accountId: int, reqs: seq<TicketTypeRequest>) returns (outcome: Outcome)
      modifies this
      ensures outcome == CheckPurchase(accountId, reqs)
      ensures outcome.Rejected? ==> calls == old(calls)
      ensures outcome.Accepted? ==>
                calls == old(calls) + [MakePayment(accountId, pricing(reqs)), ReserveSeat(accountId, Seats(reqs))]
    {
      if accountId < 1 {
        return Rejected(InvalidAccountId);
      }
      var numberOfAdults := CountTicketsForType(Adult, reqs);
      var numberOfChildren := CountTicketsForType(Child, reqs);
      var numberOfInfants := CountTicketsForType(Infant, reqs);
      outcome := ValidateTicketRequest(numberOfAdults, numberOfChildren, numberOfInfants);
      if outcome.Rejected? {
        return;
      }
      calls := calls + [MakePayment(accountId, pricing(reqs))];
      calls := calls + [ReserveSeat(accountId, numberOfAdults + numberOfChildren)];
    }
  }

  /** A client of the service: the payment the service's own examples expect,
      with the pricing service replaced by one that always answers 999. */
  method PaymentScenario()
  {
    var service := new TicketServiceImpl(_ => 999);
    var reqs := [TicketTypeRequest(Adult, 2)];
    assert CountTicketsForType(Adult, reqs) == 2 && Seats(reqs) == 2;
    var o := service.PurchaseTickets(100, reqs);
    assert o == Accepted;
    assert service.calls == [MakePayment(100, 999), ReserveSeat(100, 2)];
  }

  /** A client of the service: the seat reservations the service's own
      examples expect, and no call at all on a rejected purchase. */
  method ReservationScenario()
  {
    var service := new TicketServiceImpl(PriceTickets);
    var family := [TicketTypeRequest(Adult, 2), TicketTypeRequest(Child, 4),
                   TicketTypeRequest(Child, 3), TicketTypeRequest(Infant, 2)];
    assert CountTicketsForType(Adult, family) == 2;
    assert CountTicketsForType(Child, family) == 7;
    assert CountTicketsForType(Infant, family) == 2;
    assert CheckPurchase(100, family) == Accepted;
    var o := service.PurchaseTickets(100, family);
    assert service.calls[1] == ReserveSeat(100, 9);

    o := service.PurchaseTickets(0, [TicketTypeRequest(Adult, 3)]);
    assert o == Rejected(InvalidAccountId) && |service.calls| == 2;
  }

  /** A client of the service: repeated adult entries add up to one
      reservation, and infants in a mixed group take no seat. */
  method SeatScenario()
  {
    var service := new TicketServiceImpl(PriceTickets);
    var adults := [TicketTypeRequest(Adult, 2), TicketTypeRequest(Adult, 2)];
    assert CountTicketsForType(Adult, adults) == 4;
    var o := service.PurchaseTickets(100, adults);
    assert service.calls[1] == ReserveSeat(100, 4);

    var group := [TicketTypeRequest(Adult, 2), TicketTypeRequest(Child, 4), TicketTypeRequest(Infant, 2)];
    assert CountTicketsForType(Adult, group) == 2;
    assert CountTicketsForType(Child, group) == 4;
    assert CountTicketsForType(Infant, group) == 2;
    o := service.PurchaseTickets(100, group);
    assert service.calls[3] == ReserveSeat(100, 6);
  }
}
