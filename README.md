# Cinema ticket service — a Dafny model

This project models the decision logic of a cinema ticket service
(`TicketServiceImpl` and `TicketPricingServiceImpl`). A purchase is an account
id and a sequence of request entries, each a ticket category (ADULT, CHILD,
INFANT) with an integer quantity.

- **Purchase** (`TicketService.dfy`). The service first rejects an account id
  below 1. It then sums the quantities per category; repeated entries of one
  category add up. Next it runs an ordered chain of count rules: no negative
  adult, child or infant sum; at most 20 tickets in total; children and infants
  need an adult; no more infants than adults. Only when every rule passes does
  it make one payment call with the priced amount, then one seat-reservation
  call for adults plus children. Infants take no seat.
- **Pricing** (`TicketPricing.dfy`). Entries with a quantity of 0 or less are
  dropped one by one. Every other entry costs its category's unit price
  (INFANT 0, CHILD 10, ADULT 20) times its quantity, and the costs are summed.
- **Request shapes** (`TicketTypes.dfy`). The category enumeration and the
  immutable `(ticketType, noOfTickets)` entry. `Permutations.dfy` holds one
  generic fact about reordering a sequence, used by the order-independence
  proofs.

Counting, validation and pricing are pure functions. The purchase itself is a
method of the class `TicketServiceImpl`. The payment and seat-reservation
services are outside the model, so each call to them is appended to a ghost
trace `calls`. The pricing service is injected as a function value, as
`TicketServiceImpl`'s constructor does. The model's own client methods,
`PaymentScenario`, `ReservationScenario` and `SeatScenario`, use that injection: one passes a
pricer that always answers 999, as the unit tests mock it, and the others pass
the real `PriceTickets`.

The rejection reasons form a closed datatype `Rejection`, with one constructor
per check. `Rank` gives each check's position in the checking order, and
`CountRuleBroken` states what each count rule forbids, independently of that
order. The contract of the validation chain is `DecidedInOrder`: a rejection
names a broken rule that no earlier broken rule precedes, and an acceptance
means that no rule is broken. Two outcomes that both meet this contract are
equal (`DecidedUnique`), so it fixes the result. The code throws seven distinct messages
(`TicketServiceImpl.java` lines 41, 69, 72, 75, 78, 81 and 84), and `Rejection`
has one constructor for each.

Pricing filters each entry before summing. So an entry of two adults and an
entry of minus one adult pass validation as one adult, reserve one seat, and
are charged for two adult tickets (`AcceptedOvercharge`). `priceTickets`
filters each entry on its own sign (`TicketPricingServiceImpl.java` line 36).
The model keeps this behaviour and states it as a proved property, not as a
defect.

## Model

| member | source | states |
|---|---|---|
| `TicketPricing.UnitPrice` | cinema-tickets-java/src/main/java/uk/gov/dwp/uc/pairtest/TicketPricingServiceImpl.java:17-20 | only the infant category is free, and no category costs more than 20 |
| `TicketPricing.PricingTable` | cinema-tickets-java/src/main/java/uk/gov/dwp/uc/pairtest/TicketPricingServiceImpl.java:17-20 | unit prices are INFANT 0, CHILD 10, ADULT 20 |
| `TicketPricing.EntryPrice` | cinema-tickets-java/src/main/java/uk/gov/dwp/uc/pairtest/TicketPricingServiceImpl.java:36-37 | what one entry adds after filtering is never negative |
| `TicketPricing.PriceTickets` | cinema-tickets-java/src/main/java/uk/gov/dwp/uc/pairtest/TicketPricingServiceImpl.java:35-38 | pricing is total (no precondition, no failure) and its result is never negative |
| `TicketPricing.PriceSingle` | cinema-tickets-java/src/main/java/uk/gov/dwp/uc/pairtest/TicketPricingServiceImpl.java:36-37 | a single positive entry costs unit price × quantity; a non-positive one costs 0 |
| `TicketPricing.PriceNonPositive` | cinema-tickets-java/src/main/java/uk/gov/dwp/uc/pairtest/TicketPricingServiceImpl.java:36 | entries with quantity ≤ 0 contribute nothing whatever their category; the empty request costs 0 |
| `TicketPricing.PriceConcat` | cinema-tickets-java/src/main/java/uk/gov/dwp/uc/pairtest/TicketPricingServiceImpl.java:36-37 | price(a ++ b) = price(a) + price(b) |
| `TicketPricing.PricePermutation` | cinema-tickets-java/src/main/java/uk/gov/dwp/uc/pairtest/TicketPricingServiceImpl.java:36-37 | two requests with the same entries in any order cost the same |
| `TicketPricing.InfantEntryFree` | cinema-tickets-java/src/main/java/uk/gov/dwp/uc/pairtest/TicketPricingServiceImpl.java:18 | inserting or removing an infant entry anywhere never changes the price |
| `TicketPricing.PriceByType` | cinema-tickets-java/src/main/java/uk/gov/dwp/uc/pairtest/TicketPricingServiceImpl.java:17-37 | the price equals, per category, unit price × the sum of that category's positive quantities |
| `TicketPricing.PricingExamples` | cinema-tickets-java/src/test/java/uk/gov/dwp/uc/pairtest/TicketPricingServiceImplTest.java:18-49 | the expected prices: 1A = 20, 1C = 10, 1I = 0, none = 0, [A:-1, C:-1, I:-1] = 0, 10A = 200, 13C = 130, 3A+13C = 190, 3A+10C+2I = 160 |
| `TicketPricing.PerEntryFiltering` | cinema-tickets-java/src/main/java/uk/gov/dwp/uc/pairtest/TicketPricingServiceImpl.java:36 | filtering is per entry: [A:2, A:-1] costs 40, not the netted 20 |
| `TicketService.CountTicketsForType` | cinema-tickets-java/src/main/java/uk/gov/dwp/uc/pairtest/TicketServiceImpl.java:99-102 | the sum is 0 when no entry has the category, non-negative when none of its entries is negative, and never above the sum of that category's positive quantities |
| `TicketService.Seats` | cinema-tickets-java/src/main/java/uk/gov/dwp/uc/pairtest/TicketServiceImpl.java:51 | a request of infants alone reserves no seat; the seats reserved never exceed the adult and child tickets that pass the price filter |
| `TicketService.CountConcat` | cinema-tickets-java/src/main/java/uk/gov/dwp/uc/pairtest/TicketServiceImpl.java:99-102 | the per-category sum is additive over concatenation |
| `TicketService.CountPermutation` | cinema-tickets-java/src/main/java/uk/gov/dwp/uc/pairtest/TicketServiceImpl.java:99-102 | the per-category sum does not depend on entry order |
| `TicketService.CountSplit` | cinema-tickets-java/src/main/java/uk/gov/dwp/uc/pairtest/TicketServiceImpl.java:90-102 | splitting one entry into two of the same category changes no sum |
| `TicketService.CountOfNonNegative` | cinema-tickets-java/src/main/java/uk/gov/dwp/uc/pairtest/TicketServiceImpl.java:99-102 | with no negative entry, the netted sum equals the sum the price filter lets through |
| `TicketService.ValidateTicketRequest` | cinema-tickets-java/src/main/java/uk/gov/dwp/uc/pairtest/TicketServiceImpl.java:67-86 | the reason reported is a broken rule with no broken rule before it in the order adult, child, infant, cap, adult-needed, laps; acceptance means no rule is broken |
| `TicketService.ValidationAccepts` | cinema-tickets-java/src/main/java/uk/gov/dwp/uc/pairtest/TicketServiceImpl.java:67-86 | accepted iff 0 ≤ adults, 0 ≤ children, 0 ≤ infants ≤ adults, total ≤ 20 and (children + infants > 0 ⇒ adults ≥ 1) |
| `TicketService.NegativeCountsFirst` | cinema-tickets-java/src/main/java/uk/gov/dwp/uc/pairtest/TicketServiceImpl.java:68-76 | a negative sum is reported (adult before child before infant) whatever the total |
| `TicketService.CapIsInclusive` | cinema-tickets-java/src/main/java/uk/gov/dwp/uc/pairtest/TicketServiceImpl.java:77-79 | for non-negative counts, a total of at most 20 is never rejected by the cap and a larger one always is |
| `TicketService.DependantsNeedAdult` | cinema-tickets-java/src/main/java/uk/gov/dwp/uc/pairtest/TicketServiceImpl.java:80-82 | children or infants with zero adults are rejected as lacking an adult |
| `TicketService.InfantsNeedLaps` | cinema-tickets-java/src/main/java/uk/gov/dwp/uc/pairtest/TicketServiceImpl.java:83-85 | more infants than adults is rejected as too few laps |
| `TicketService.DecidedUnique` | cinema-tickets-java/src/main/java/uk/gov/dwp/uc/pairtest/TicketServiceImpl.java:67-86 | two outcomes that both meet the in-order contract for the same counts are equal, so the contract of the validation chain fixes the accept/reject decision and the one reason reported |
| `TicketService.CheckPurchase` | cinema-tickets-java/src/main/java/uk/gov/dwp/uc/pairtest/TicketServiceImpl.java:39-48 | an id below 1 is rejected as invalid whatever the counts; for a valid id the outcome is decided in order by the rules over the three sums |
| `TicketService.OutcomeDependsOnCounts` | cinema-tickets-java/src/main/java/uk/gov/dwp/uc/pairtest/TicketServiceImpl.java:40-48 | the outcome depends only on the account id and the three per-category sums |
| `TicketService.PurchasePermutation` | cinema-tickets-java/src/main/java/uk/gov/dwp/uc/pairtest/TicketServiceImpl.java:44-51 | reordering the entries changes neither the outcome nor the seat count |
| `TicketService.AcceptedSeats` | cinema-tickets-java/src/main/java/uk/gov/dwp/uc/pairtest/TicketServiceImpl.java:40-51 | an accepted purchase has a valid id, 0 ≤ infants ≤ adults ≤ seats, seats + infants ≤ 20, and an adult whenever there is a child |
| `TicketService.InfantTakesNoSeat` | cinema-tickets-java/src/main/java/uk/gov/dwp/uc/pairtest/TicketServiceImpl.java:51 | inserting or removing an infant entry at any position never changes the number of seats reserved |
| `TicketService.ChargeCoversCounts` | cinema-tickets-java/src/main/java/uk/gov/dwp/uc/pairtest/TicketServiceImpl.java:50-51 | the charge is at least 20 × adults + 10 × children, with equality when no entry is negative |
| `TicketService.AcceptedOvercharge` | cinema-tickets-java/src/main/java/uk/gov/dwp/uc/pairtest/TicketServiceImpl.java:48-51 | [A:2, A:-1] is accepted, reserves 1 seat and is charged for 2 adult tickets |
| `TicketService.AccountExamples` | cinema-tickets-java/src/main/java/uk/gov/dwp/uc/pairtest/TicketServiceImpl.java:40-42 | ids 0 and -30 are rejected as invalid, id 3 with 4 adults is accepted, and id 0 with -5 children reports the invalid id, not the negative count |
| `TicketService.DependantExamples` | cinema-tickets-java/src/main/java/uk/gov/dwp/uc/pairtest/TicketServiceImpl.java:80-85 | 1A+2C+1I is accepted, 0A+2C+1I lacks an adult, 1A+2C+2I has too few laps |
| `TicketService.CountExamples` | cinema-tickets-java/src/main/java/uk/gov/dwp/uc/pairtest/TicketServiceImpl.java:68-79 | -4A is a negative adult count; 6A+10A and 20A are accepted; 16A+10A and 21A exceed the cap |
| `TicketService.SeatExamples` | cinema-tickets-java/src/main/java/uk/gov/dwp/uc/pairtest/TicketServiceImpl.java:44-51 | with account 100, 2A reserves 2 seats, 2A+2A reserves 4, 2A+4C+2I reserves 6 and 2A+4C+3C+2I reserves 9, each purchase accepted |
| `TicketService.TicketServiceImpl.constructor` | cinema-tickets-java/src/main/java/uk/gov/dwp/uc/pairtest/TicketServiceImpl.java:23-28 | the injected pricing service is kept and no call has been made yet |
| `TicketService.TicketServiceImpl.PurchaseTickets` | cinema-tickets-java/src/main/java/uk/gov/dwp/uc/pairtest/TicketServiceImpl.java:39-52 | the outcome is `CheckPurchase`; on rejection no call is made; on acceptance exactly one payment (id, price of the request) is followed by exactly one reservation (id, adults + children) |

## Left out

- The payment and seat-reservation services are third-party code, so they are not modelled. Their calls are recorded in a ghost trace, and any failure they raise is out of scope.
- Java `int` overflow is not modelled. Sums and products use unbounded integers, so the model assumes that every `int` expression in `purchaseTickets`, `validateTicketRequest`, `countTicketsForType` and `priceTickets` fits in 32 bits. That includes the per-category sums, the totals at `TicketServiceImpl.java` lines 77, 80 and 51, and every product and sum at `TicketPricingServiceImpl.java` lines 36-37.
- TicketService.CheckPurchase: when a Java sum or product wraps around, the model's accept/reject decision, the amount charged and the number of seats reserved can all differ from the code's, not only the reason reported. For account 1 and [A:2147483647, C:1], the total at `TicketServiceImpl.java` line 77 wraps to -2147483648, so the cap does not fire, the guards at lines 80 and 83 pass, and the code accepts. It then pays -10, because `20 * 2147483647` wraps to -20 at `TicketPricingServiceImpl.java` line 37, and reserves -2147483648 seats at line 51. The model rejects the same purchase with `TooManyTickets`. Likewise, for [A:1, I:2147483647] the code throws the too-few-laps message at line 84 where the model reports `TooManyTickets`.
- Null account ids, null request arrays and null entries are not modelled.
- Exception messages are not modelled as strings. Each one is a `Rejection` constructor.
- Constructor dependency injection is modelled only for the pricing service, and the test framework is not modelled.
- Several test methods make further calls after an expected exception. Those calls never run, so no property is derived from them.
