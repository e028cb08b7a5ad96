# Payment optimizer — a Dafny model of the allocation engine

The optimizer takes a batch of orders and a set of payment methods and
decides, order by order in input order, how each order is paid. Each
payment method has an id, a discount percentage and a spending limit. The
result is a usage ledger that maps each method id to the total charged to
it. For each order the engine takes the first of these that succeeds:

- **Full payment.** The method with the largest discount among the order's
  promotions, and then `PUNKTY` (the loyalty-points method), pays the
  whole order. It must be able to cover the undiscounted value. A candidate
  replaces the running best only when its discount is strictly greater, so
  on a tie the earlier candidate wins and a discount of zero never wins.
- **Mixed payment.** `PUNKTY` pays at least ten percent of the value. One
  other method whose limit covers the rest pays that rest. The order gets a
  flat 10% discount.
- **Unpaid.** Nothing changes.

Every charge goes through `applyPayment`. It lowers the method's limit and
merge-adds the amount into the ledger. Later orders see the limits that
earlier orders left.

Money is modelled as whole cents (100.00 is 10000). For amounts with at
most two fractional digits, BigDecimal's half-up rounding to two places is
`(v * pct + 50) / 100` for a discount and `(v + 5) / 10` for the ten
percent. `Money.TenPercent` is proved equal to the 10% discount.

Modules:

- `Money` (money.dfy): the rounding rules.
- `Model` (model.dfy): `Order`, `PaymentMethod` and `PaymentCandidate`. It
  also holds `Promotions`, which models `getPromotions`: an absent list
  means no promotions. `MethodMap` models the `toMap` collection.
- `Allocation` (allocation.dfy): the engine as functions on values, with
  the lemmas about them.
  - `Store` holds the method map and the ledger.
  - `Apply` is `applyPayment`.
  - `CanFullyPayWith` is `canFullyPayWith`; `CanApplyPartialPoints` is
    `canApplyPartialPoints`.
  - `BestOf` and `FullCandidate` are the full-payment scan.
  - `FirstCovering` is the fallback search; `MixedPlan` is the mixed phase.
  - `PlanFor` is the decision for one order; `Execute` and `Step` carry it out.
  - `ProcessAll` is the whole batch.
- `Optimizer` (optimizer.dfy): class `PaymentOptimizer`. It holds the
  method map and the ledger as mutable fields. Its methods mirror the Java
  methods, loops included. Each is proved to compute what `Allocation`
  says. Its invariant `Valid()` includes the conservation: every limit is
  its configured value less its ledger entry.
- `Scenarios` (scenarios.dfy): the unit-test cases, and a few more edge
  cases, stated as facts about whole runs.

The `HashMap` search for a fallback method has no defined order. The model
fixes it to declaration order (`scanOrder`, the ids of the method list).
`FindMethodToCoverRemainder` also states the order-free contract: it
returns some other method that covers the remainder, or none exists.

Two consequences of the code:

- A paid order is not charged its full value. A full payment charges the
  value less the winner's discount. A mixed payment charges the value less
  the ten percent, split over the two methods (`PaidOrderCharges`).
- For non-negative order values, the second gate of the mixed phase
  (`pointsToUse < tenPercent`, PaymentOptimizer.java line 90) never
  rejects an order. Once the first
  gate holds, `min(value - tenPercent, pointsLimit)` is at least
  `tenPercent` (`PointsGateFollowsFromLimitGate`). The model keeps the
  check, and the class proves that branch unreachable.

Two behaviours of the code are kept as they are and shown by scenarios:

- A method whose discount rounds to zero never wins the full payment.
  With PUNKTY at 0% as the only method, an order stays unpaid, even
  though PUNKTY could pay it in full (`ZeroDiscountNeverPaysInFull`).
- A remainder of zero still needs a fallback method, and that method gets
  a ledger entry of 0 (`ZeroRemainderCreatesLedgerEntry`).

## Model

| member | source | states |
|---|---|---|
| `Money.Discount` | src/main/java/org/example/logic/PaymentOptimizer.java:127-129 | the discount is the nearest cent to value·pct/100, with a half rounded up; it is non-negative, and at most the value when pct ≤ 100 |
| `Money.TenPercent` | src/main/java/org/example/logic/PaymentOptimizer.java:131-133 | a tenth of the value rounded half-up equals the 10% discount, and lies between 0 and the value |
| `Money.Min` | src/main/java/org/example/logic/PaymentOptimizer.java:88 | `min` returns one of its arguments and is no larger than either |
| `Model.MethodMap` | src/main/java/org/example/logic/PaymentOptimizer.java:28-29 | with unique ids, every method is found under its own id and every key is some method's id |
| `Model.MethodMapKeys` | src/main/java/org/example/logic/PaymentOptimizer.java:28-29 | every key of the store is the id of the method under it and an id of the declared list |
| `Allocation.Apply` | src/main/java/org/example/logic/PaymentOptimizer.java:135-141 | only `id`'s limit drops, by exactly `amount`; only `id`'s ledger entry rises, by `amount`, from 0 if absent, and its key is added; every other method and entry is unchanged |
| `Allocation.BestOfIsFirstStrictMaximum` | src/main/java/org/example/logic/PaymentOptimizer.java:54-72 | the strict-greater scan picks an eligible candidate with the largest discount, and that discount is positive; no earlier eligible candidate has an equal discount; when nothing is picked, no eligible candidate has a positive discount |
| `Allocation.FullCandidate` | src/main/java/org/example/logic/PaymentOptimizer.java:52-76 | the winner is a promotion of the order or PUNKTY; it exists, its limit covers the whole value, its discount is positive, and it is charged value − discount; there is no winner exactly when every eligible candidate's discount is 0 |
| `Allocation.FullCandidateIsFirstLargestDiscount` | src/main/java/org/example/logic/PaymentOptimizer.java:57-73 | the winner's discount is at least that of every eligible candidate, and every eligible candidate evaluated before it (promotions in order, PUNKTY last) has a strictly smaller one |
| `Allocation.FirstCovering` | src/main/java/org/example/logic/PaymentOptimizer.java:107-114 | the fallback found is a scanned method other than PUNKTY whose limit covers the remainder; none is found exactly when no such method is scanned |
| `Allocation.PointsGateFollowsFromLimitGate` | src/main/java/org/example/logic/PaymentOptimizer.java:84-90 | when PUNKTY's limit covers the ten percent, `pointsToUse` covers it too |
| `Allocation.MixedPlanCharges` | src/main/java/org/example/logic/PaymentOptimizer.java:84-96 | PUNKTY is charged `min(value − tenPercent, pointsLimit)`, which lies between the ten percent and its limit; the fallback, another method, is charged the rest; the two charges sum to value − tenPercent, and the rest is non-negative and within the fallback's limit |
| `Allocation.MixedPlanUnpaidIff` | src/main/java/org/example/logic/PaymentOptimizer.java:80-114 | the mixed phase leaves the order unpaid if and only if PUNKTY is missing, or its limit is below the ten percent, or `pointsToUse` is, or no other method's limit covers the remainder |
| `Allocation.PlanFor` | src/main/java/org/example/logic/PaymentOptimizer.java:33-36 | an order is paid in full exactly when a full candidate exists, and then charges that candidate's method its amount; otherwise the mixed phase decides |
| `Model.Promotions` | src/main/java/org/example/logic/PaymentOptimizer.java:123-125 | an absent promotion list reads as empty; a present one is used as given |
| `Allocation.CanFullyPayWith` | src/main/java/org/example/logic/PaymentOptimizer.java:118-121 | a method that can pay exists in the store (the null check); the limit comparison is its definition, and `FullCandidate` and `FirstCovering` state their results through it |
| `Allocation.CanApplyPartialPoints` | src/main/java/org/example/logic/PaymentOptimizer.java:100-105 | the gate holds only when PUNKTY exists and its limit covers the 10% discount of the value; `MixedPlanUnpaidIff` states what failing it means |
| `Allocation.BestOf` | src/main/java/org/example/logic/PaymentOptimizer.java:54-73 | the running best, when set, is an eligible candidate of the scanned list whose positive discount it records, and otherwise the discount is 0; `BestOfIsFirstStrictMaximum` states that it is the first largest |
| `Allocation.MixedPlan` | src/main/java/org/example/logic/PaymentOptimizer.java:80-98 | the mixed phase never pays in full; when it pays, the first gate held, the fallback is not PUNKTY, and the two charges sum to value − tenPercent; `MixedPlanCharges` and `MixedPlanUnpaidIff` state the rest |
| `Allocation.Step` | src/main/java/org/example/logic/PaymentOptimizer.java:33-36 | one order changes each method's limit and ledger entry by exactly the charge the decision makes to it, keeps the set of methods, and changes nothing when the order is unpaid |
| `Allocation.ProcessAll` | src/main/java/org/example/logic/PaymentOptimizer.java:32-39 | over the batch, the methods, their ids and discounts stay the same, and each limit falls by exactly what its ledger entry rises by; `ProcessAllConserves` adds non-negative limits and ledger keys naming only methods |
| `Allocation.PaidOrderCharges` | src/main/java/org/example/logic/PaymentOptimizer.java:43-97 | a full payment charges the value less a positive discount; a mixed payment happens only without a full candidate, and charges the value less the ten percent |
| `Allocation.ChargesWithinLimits` | src/main/java/org/example/logic/PaymentOptimizer.java:43-114 | with pct ≤ 100 and non-negative values and limits, every charge is non-negative and within the method's current limit, and a mixed payment charges two distinct methods |
| `Allocation.Execute` | src/main/java/org/example/logic/PaymentOptimizer.java:94-97 | carrying out a plan keeps the set of methods, adds a ledger key for each charged method (a zero charge included), and changes nothing for an unpaid order |
| `Allocation.ExecuteCharges` | src/main/java/org/example/logic/PaymentOptimizer.java:135-141 | each method's limit drops by exactly what its ledger entry rises by, the plan's charge to it; its id and discount are unchanged |
| `Allocation.ExecuteConserves` | src/main/java/org/example/logic/PaymentOptimizer.java:135-141 | an affordable plan keeps the invariant (configured limit − current limit = ledger entry, limits ≥ 0, ledger keys are method ids); no entry falls and no limit rises |
| `Allocation.StepConserves` | src/main/java/org/example/logic/PaymentOptimizer.java:33-37 | processing one order keeps the invariant; ledger entries never decrease and limits never increase |
| `Allocation.ProcessAllConserves` | src/main/java/org/example/logic/PaymentOptimizer.java:32-39 | after any prefix of the batch, every method's configured limit minus its current limit equals its ledger entry (0 if absent); no limit is negative, and the ledger names only existing methods |
| `Optimizer.PaymentOptimizer.constructor` | src/main/java/org/example/logic/PaymentOptimizer.java:26-30 | the store holds each method under its id, the ledger is empty, and the invariant holds |
| `Optimizer.PaymentOptimizer.OptimizePayments` | src/main/java/org/example/logic/PaymentOptimizer.java:32-39 | the loop processes each order once, in input order; the final store and ledger are those of `ProcessAll`; the invariant holds, and the ledger is returned |
| `Optimizer.PaymentOptimizer.TryApplyBestFullPayment` | src/main/java/org/example/logic/PaymentOptimizer.java:43-50 | it reports success exactly when a full candidate exists; on success the state is that of the engine's step, otherwise it is unchanged |
| `Optimizer.PaymentOptimizer.FindBestFullPaymentCandidate` | src/main/java/org/example/logic/PaymentOptimizer.java:52-76 | the loop over the promotions, then the PUNKTY check, with a running best that only a strictly greater discount replaces, returns `FullCandidate` |
| `Optimizer.PaymentOptimizer.TryApplyMixedPointsPayment` | src/main/java/org/example/logic/PaymentOptimizer.java:80-98 | the new state is the old one with the mixed plan carried out, and exactly the old one when any gate fails; the invariant holds |
| `Optimizer.PaymentOptimizer.FindMethodToCoverRemainder` | src/main/java/org/example/logic/PaymentOptimizer.java:107-114 | it returns some method other than PUNKTY whose limit covers the remainder, or none when no such method exists; the search goes in declaration order |
| `Optimizer.PaymentOptimizer.ApplyPayment` | src/main/java/org/example/logic/PaymentOptimizer.java:135-141 | the new store and ledger are `Apply` of the old ones |
| `Scenarios.FullPaymentPicksLargestDiscount` | src/test/java/org/example/logic/PaymentOptimizerTest.java:17-28 | CARD2 (10%) is charged 90.00 over CARD1 (5%); nothing else is charged |
| `Scenarios.FullPaymentPrefersPointsDiscount` | src/test/java/org/example/logic/PaymentOptimizerTest.java:30-40 | PUNKTY at 20% is charged 80.00 over CARD1 at 10% |
| `Scenarios.MixedPaymentWithFallback` | src/test/java/org/example/logic/PaymentOptimizerTest.java:42-53 | PUNKTY is charged 50.00 and CARD1 40.00 |
| `Scenarios.NotEnoughPointsOrCard` | src/test/java/org/example/logic/PaymentOptimizerTest.java:55-65 | with CARD1 at 30.00 and points at 5.00, the ledger stays empty |
| `Scenarios.PointsPayInFullWithoutPromotions` | src/test/java/org/example/logic/PaymentOptimizerTest.java:67-77 | PUNKTY pays 80.00 in full at 15%, and is charged 68.00 |
| `Scenarios.ExactTenPercentPoints` | src/test/java/org/example/logic/PaymentOptimizerTest.java:79-90 | points of exactly 10.00 pass the gate; PUNKTY is charged 10.00 and CARD1 80.00 |
| `Scenarios.LaterOrdersSeeReducedLimits` | src/main/java/org/example/logic/PaymentOptimizer.java:32-39 | the second of two equal orders sees CARD1's limit lowered by the first, and stays unpaid |
| `Scenarios.ZeroDiscountNeverPaysInFull` | src/main/java/org/example/logic/PaymentOptimizer.java:67-73 | PUNKTY at 0% never wins the full payment; with no other method, the order stays unpaid |
| `Scenarios.ZeroRemainderCreatesLedgerEntry` | src/main/java/org/example/logic/PaymentOptimizer.java:91-96 | a remainder of 0.00 is charged to a fallback method, which gets a ledger entry of 0.00 |

## Left out

- Main.java is not part of this model: JSON loading, the argument-count
  check, exit codes, console output, writing `result.txt` and logging are
  I/O.
- MainIntegrationTest.java is not part of this model. It depends on
  resource files that are not available.
- Optimizer.PaymentOptimizer.constructor: requires unique method ids. In
  Java, `Collectors.toMap` throws on a duplicate id, and that exception is
  not modelled.
- Optimizer.PaymentOptimizer.constructor: requires non-negative order
  values and limits, and discounts of at most 100 percent. The Java code
  does not check these. Outside them, charges could be negative, and for
  a negative order value the second mixed-payment gate can reject.
- Model.PaymentMethod: the discount is a `nat`. Java's `BigInteger`
  discount may be negative; such methods are not modelled. For
  non-negative values a negative discount is below zero and never wins
  the full payment anyway.
- Null fields (a missing order value, discount or limit) would throw
  `NullPointerException` in Java. They are not modelled. A missing
  promotion list is modelled, as `None`.
- Amounts are whole cents. Inputs with more than two fractional digits
  round differently in BigDecimal and are not modelled. The two-digit
  display formatting of the output is presentation only.
- The `HashMap` iteration order of the fallback search is replaced by
  declaration order. The order of entries in the returned ledger is not
  modelled (a `map` has none).
- Each method of the Java store is a separate mutable object. The model
  holds them as values in one map field that the class reassigns.
  `toMap` stores the caller's own `PaymentMethod` objects, so in Java
  `setLimit` also changes the limits the caller sees through its list,
  and two optimizers built from one list share those limits. Those
  caller-visible changes to the method objects are not modelled.
- `optimizePayments` returns the live internal `usage` map, so later
  changes to it by either side are visible to the other. The model
  returns the ledger as a value.
