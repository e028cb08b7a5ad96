/** The allocation engine as functions on values: the decision it takes for
    one order, the change that decision makes to the method store and the
    usage ledger, and the whole batch as a fold over the orders in input
    order. The class in module Optimizer is proved to compute exactly these. */
module Allocation {
  import opened Money
  import opened Model

  /** What the engine mutates: the method store, keyed by id, whose limits
      go down, and the usage ledger, whose entries go up. */
  datatype Store = Store(methods: map<string, PaymentMethod>, usage: map<string, int>)

  /** The ledger entry of `id`; an id without a key has been charged nothing. */
  function Used(usage: map<string, int>, id: string): int {
    if id in usage then usage[id] else 0
  }

  /** The shape every store of a run has: each method is filed under its own
      id, limits are non-negative, discounts are percentages of at most 100,
      and the ledger only names known methods, with non-negative totals. */
  ghost predicate WellFormed(s: Store) {
    && (forall id :: id in s.methods ==>
          s.methods[id].id == id && s.methods[id].limit >= 0 && s.methods[id].discount <= 100)
    && (forall id :: id in s.usage ==> id in s.methods && s.usage[id] >= 0)
  }

  /** `applyPayment`: lower the limit of `id` by `amount` and merge-add
      `amount` into its ledger entry; nothing else changes. */
  function Apply(s: Store, id: string, amount: int): (t: Store)
    requires id in s.methods
    ensures t.methods.Keys == s.methods.Keys
    ensures t.methods[id] == s.methods[id].(limit := s.methods[id].limit - amount)
    ensures forall k :: k in s.methods && k != id ==> t.methods[k] == s.methods[k]
    ensures t.usage.Keys == s.usage.Keys + {id}
    ensures Used(t.usage, id) == Used(s.usage, id) + amount
    ensures forall k :: k != id ==> Used(t.usage, k) == Used(s.usage, k)
  {
    var m := s.methods[id];
    Store(s.methods[id := m.(limit := m.limit - amount)], s.usage[id := Used(s.usage, id) + amount])
  }

  // ---------------------------------------------------------------- full payment

  /** `canFullyPayWith`: the method exists and its limit covers `amount`. */
  predicate CanFullyPayWith(methods: map<string, PaymentMethod>, id: string, amount: int)
    ensures CanFullyPayWith(methods, id, amount) ==> id in methods
  {
    id in methods && methods[id].limit >= amount
  }

  /** The discount method `id` gives on `value`. */
  function DiscountFor(methods: map<string, PaymentMethod>, id: string, value: int): int
    requires id in methods && value >= 0
  {
    Discount(value, methods[id].discount)
  }

  /** The ids the full-payment phase evaluates, in evaluation order: the
      order's promotions in list order, then PUNKTY. */
  function Candidates(o: Order): seq<string> {
    Promotions(o) + [PUNKTY]
  }

  /** The running best of the full-payment scan: `discount` starts at zero
      and `bestMethod` at none. */
  datatype Best = Best(discount: int, bestMethod: Option<string>)

  /** The running best after evaluating `cs` in order: an eligible candidate
      replaces the best only when its discount is strictly greater. */
  function BestOf(methods: map<string, PaymentMethod>, cs: seq<string>, value: int): (b: Best)
    requires value >= 0
    ensures b.bestMethod.None? ==> b.discount == 0
    ensures b.bestMethod.Some? ==>
      && b.bestMethod.value in cs
      && CanFullyPayWith(methods, b.bestMethod.value, value)
      && 0 < b.discount == DiscountFor(methods, b.bestMethod.value, value)
  {
    if cs == [] then Best(0, None)
    else
      var b := BestOf(methods, cs[..|cs| - 1], value);
      var c := cs[|cs| - 1];
      if CanFullyPayWith(methods, c, value) && DiscountFor(methods, c, value) > b.discount
      then Best(DiscountFor(methods, c, value), Some(c))
      else b
  }

  /** `b` is the first eligible candidate of `cs` with the largest discount,
      and that discount is positive; or, when no method is chosen, no
      eligible candidate gives a positive discount. */
  ghost predicate FirstStrictMaximum(methods: map<string, PaymentMethod>, cs: seq<string>, value: int, b: Best)
    requires value >= 0
  {
    && (forall j :: 0 <= j < |cs| && CanFullyPayWith(methods, cs[j], value) ==>
          DiscountFor(methods, cs[j], value) <= b.discount)
    && (b.bestMethod.None? ==> b.discount == 0)
    && (b.bestMethod.Some? ==>
          && b.discount > 0
          && exists k :: 0 <= k < |cs| && cs[k] == b.bestMethod.value
               && CanFullyPayWith(methods, cs[k], value)
               && DiscountFor(methods, cs[k], value) == b.discount
               && forall j :: 0 <= j < k && CanFullyPayWith(methods, cs[j], value) ==>
                    DiscountFor(methods, cs[j], value) < b.discount)
  }

  /** The strict-greater scan finds the first candidate with the largest
      positive discount; a later equal discount never replaces it. */
  lemma {:induction false} BestOfIsFirstStrictMaximum(methods: map<string, PaymentMethod>, cs: seq<string>, value: int)
    requires value >= 0
    ensures FirstStrictMaximum(methods, cs, value, BestOf(methods, cs, value))
  {
    if cs != [] {
      var init := cs[..|cs| - 1];
      BestOfIsFirstStrictMaximum(methods, init, value);
      var b := BestOf(methods, init, value);
      var c := cs[|cs| - 1];
      assert forall j :: 0 <= j < |init| ==> cs[j] == init[j];
      if CanFullyPayWith(methods, c, value) && DiscountFor(methods, c, value) > b.discount {
        var k := |cs| - 1;
        assert cs[k] == c;
      } else if b.bestMethod.Some? {
        var k :| 0 <= k < |init| && init[k] == b.bestMethod.value
          && CanFullyPayWith(methods, init[k], value)
          && DiscountFor(methods, init[k], value) == b.discount
          && forall j :: 0 <= j < k && CanFullyPayWith(methods, init[j], value) ==>
               DiscountFor(methods, init[j], value) < b.discount;
        assert cs[k] == b.bestMethod.value;
      }
    }
  }

  /** `findBestFullPaymentCandidate`: the winner of the scan over
      `Candidates(o)`, charged the order value less its discount. */
  function FullCandidate(methods: map<string, PaymentMethod>, o: Order): (c: Option<PaymentCandidate>)
    requires o.value >= 0
    ensures c.Some? ==>
      && c.value.methodId in Candidates(o)
      && CanFullyPayWith(methods, c.value.methodId, o.value)
      && DiscountFor(methods, c.value.methodId, o.value) > 0
      && c.value.amountToPay == o.value - DiscountFor(methods, c.value.methodId, o.value)
    ensures c.None? <==>
      forall id :: id in Candidates(o) && CanFullyPayWith(methods, id, o.value) ==>
        DiscountFor(methods, id, o.value) == 0
  {
    var b := BestOf(methods, Candidates(o), o.value);
    BestOfIsFirstStrictMaximum(methods, Candidates(o), o.value);
    if b.bestMethod.Some? then Some(PaymentCandidate(b.bestMethod.value, o.value - b.discount)) else None
  }

  /** The full-payment winner has the largest discount of every eligible
      candidate, and no candidate evaluated before it has an equal one. */
  lemma FullCandidateIsFirstLargestDiscount(methods: map<string, PaymentMethod>, o: Order)
    requires o.value >= 0
    requires FullCandidate(methods, o).Some?
    ensures var w := FullCandidate(methods, o).value.methodId;
      && (forall id :: id in Candidates(o) && CanFullyPayWith(methods, id, o.value) ==>
            DiscountFor(methods, id, o.value) <= DiscountFor(methods, w, o.value))
      && exists k :: 0 <= k < |Candidates(o)| && Candidates(o)[k] == w
           && forall j :: 0 <= j < k && CanFullyPayWith(methods, Candidates(o)[j], o.value) ==>
                DiscountFor(methods, Candidates(o)[j], o.value) < DiscountFor(methods, w, o.value)
  {
    BestOfIsFirstStrictMaximum(methods, Candidates(o), o.value);
  }

  // ---------------------------------------------------------------- mixed payment

  /** `canApplyPartialPoints`: PUNKTY exists and its limit covers the
      mandatory ten percent. */
  predicate CanApplyPartialPoints(methods: map<string, PaymentMethod>, o: Order)
    requires o.value >= 0
    ensures CanApplyPartialPoints(methods, o) ==> PUNKTY in methods && methods[PUNKTY].limit >= Discount(o.value, 10)
    ensures CanApplyPartialPoints(methods, o) ==> CanFullyPayWith(methods, PUNKTY, TenPercent(o.value))
  {
    PUNKTY in methods && methods[PUNKTY].limit >= TenPercent(o.value)
  }

  /** `findMethodToCoverRemainder` with the search order fixed to `scan`:
      the first id of `scan` other than PUNKTY whose limit covers `remainder`. */
  function FirstCovering(methods: map<string, PaymentMethod>, scan: seq<string>, remainder: int): (r: Option<string>)
    ensures r.Some? ==> r.value in scan && r.value != PUNKTY && CanFullyPayWith(methods, r.value, remainder)
    ensures r.None? <==> forall id :: id in scan && id != PUNKTY ==> !CanFullyPayWith(methods, id, remainder)
  {
    if scan == [] then None
    else if scan[0] != PUNKTY && CanFullyPayWith(methods, scan[0], remainder) then Some(scan[0])
    else FirstCovering(methods, scan[1..], remainder)
  }

  /** What the engine does with one order. */
  datatype Plan =
    | FullPayment(methodId: string, amount: int)
    | MixedPayment(points: int, fallback: string, remaining: int)
    | Unpaid

  /** `tryApplyMixedPointsPayment`, as the plan it commits to. */
  function MixedPlan(methods: map<string, PaymentMethod>, scan: seq<string>, o: Order): (p: Plan)
    requires o.value >= 0
    ensures !p.FullPayment?
    ensures p.MixedPayment? ==>
      && CanApplyPartialPoints(methods, o)
      && p.fallback != PUNKTY
      && p.points + p.remaining == o.value - TenPercent(o.value)
  {
    if !CanApplyPartialPoints(methods, o) then Unpaid
    else
      var tenPercent := TenPercent(o.value);
      var toPay := o.value - tenPercent;
      var pointsToUse := Min(toPay, methods[PUNKTY].limit);
      if pointsToUse < tenPercent then Unpaid
      else
        var remaining := toPay - pointsToUse;
        match FirstCovering(methods, scan, remaining)
        case None => Unpaid
        case Some(fallback) => MixedPayment(pointsToUse, fallback, remaining)
  }

  /** A successful mixed payment charges PUNKTY `min(value - tenPercent,
      pointsLimit)`, which is at least the ten percent, and the fallback the
      rest of `value - tenPercent`; the fallback is another method whose
      limit covers that rest. */
  lemma MixedPlanCharges(methods: map<string, PaymentMethod>, scan: seq<string>, o: Order)
    requires o.value >= 0
    requires MixedPlan(methods, scan, o).MixedPayment?
    ensures var p := MixedPlan(methods, scan, o);
      && PUNKTY in methods
      && p.points == Min(o.value - TenPercent(o.value), methods[PUNKTY].limit)
      && TenPercent(o.value) <= p.points <= methods[PUNKTY].limit
      && p.remaining == o.value - TenPercent(o.value) - p.points
      && p.points + p.remaining == o.value - TenPercent(o.value)
      && 0 <= p.remaining
      && p.fallback != PUNKTY && p.fallback in scan
      && CanFullyPayWith(methods, p.fallback, p.remaining)
  {
  }

  /** Once PUNKTY's limit covers the ten percent, `pointsToUse` does too:
      `value - tenPercent` is never below `tenPercent`, so the second gate of
      the mixed phase never turns an order away. */
  lemma PointsGateFollowsFromLimitGate(methods: map<string, PaymentMethod>, o: Order)
    requires o.value >= 0
    requires CanApplyPartialPoints(methods, o)
    ensures Min(o.value - TenPercent(o.value), methods[PUNKTY].limit) >= TenPercent(o.value)
  {
  }

  /** The mixed phase pays nothing exactly when one of its gates fails: no
      PUNKTY, PUNKTY below the ten percent, `pointsToUse` below the ten
      percent, or no other method of the store covering the remainder. */
  lemma MixedPlanUnpaidIff(methods: map<string, PaymentMethod>, scan: seq<string>, o: Order)
    requires o.value >= 0
    requires forall id :: id in methods ==> id in scan
    ensures MixedPlan(methods, scan, o).Unpaid? <==>
      || PUNKTY !in methods
      || methods[PUNKTY].limit < TenPercent(o.value)
      || Min(o.value - TenPercent(o.value), methods[PUNKTY].limit) < TenPercent(o.value)
      || forall id :: id in methods && id != PUNKTY ==>
           methods[id].limit < o.value - TenPercent(o.value) - Min(o.value - TenPercent(o.value), methods[PUNKTY].limit)
  {
  }

  // ---------------------------------------------------------------- one order

  /** The decision for one order: full payment when a candidate exists, the
      mixed payment only otherwise. */
  function PlanFor(methods: map<string, PaymentMethod>, scan: seq<string>, o: Order): (p: Plan)
    requires o.value >= 0
    ensures p.FullPayment? <==> FullCandidate(methods, o).Some?
    ensures p.FullPayment? ==>
      p == FullPayment(FullCandidate(methods, o).value.methodId, FullCandidate(methods, o).value.amountToPay)
    ensures !p.FullPayment? ==> p == MixedPlan(methods, scan, o)
  {
    match FullCandidate(methods, o)
    case Some(c) => FullPayment(c.methodId, c.amountToPay)
    case None => MixedPlan(methods, scan, o)
  }

  /** What a paid order costs: in full, the order value less the chosen
      method's positive discount; mixed, only when no full candidate exists,
      the order value less the ten percent, split over PUNKTY and the
      fallback. */
  lemma PaidOrderCharges(methods: map<string, PaymentMethod>, scan: seq<string>, o: Order)
    requires o.value >= 0
    ensures var p := PlanFor(methods, scan, o);
      && (p.FullPayment? ==>
            && p.methodId in methods
            && 0 < DiscountFor(methods, p.methodId, o.value)
            && p.amount == o.value - DiscountFor(methods, p.methodId, o.value))
      && (p.MixedPayment? ==>
            && FullCandidate(methods, o).None?
            && p.points + p.remaining == o.value - TenPercent(o.value))
  {
  }

  /** Every amount of `p` is non-negative and within the limit of the method
      it is charged to at the moment it is charged; a mixed payment uses two
      distinct methods. */
  predicate Affordable(methods: map<string, PaymentMethod>, p: Plan) {
    match p
    case FullPayment(id, a) => id in methods && 0 <= a <= methods[id].limit
    case MixedPayment(pts, f, r) =>
      && PUNKTY in methods && f in methods && f != PUNKTY
      && 0 <= pts <= methods[PUNKTY].limit && 0 <= r <= methods[f].limit
    case Unpaid => true
  }

  /** Given percentages of at most 100 and non-negative values, the engine
      never charges a negative amount or more than a method's current limit,
      so no limit ever goes negative. */
  lemma ChargesWithinLimits(s: Store, scan: seq<string>, o: Order)
    requires WellFormed(s) && o.value >= 0
    ensures Affordable(s.methods, PlanFor(s.methods, scan, o))
  {
  }

  /** What plan `p` charges to method `id`. */
  function ChargeTo(p: Plan, id: string): int {
    match p
    case FullPayment(m, a) => if id == m then a else 0
    case MixedPayment(pts, f, r) => (if id == PUNKTY then pts else 0) + (if id == f then r else 0)
    case Unpaid => 0
  }

  /** The methods a plan charges, a zero charge included: each gets a ledger key. */
  function Payees(p: Plan): set<string> {
    match p
    case FullPayment(id, _) => {id}
    case MixedPayment(_, f, _) => {PUNKTY, f}
    case Unpaid => {}
  }

  /** The methods a plan names exist. */
  predicate Payable(methods: map<string, PaymentMethod>, p: Plan) {
    match p
    case FullPayment(id, _) => id in methods
    case MixedPayment(_, f, _) => PUNKTY in methods && f in methods
    case Unpaid => true
  }

  /** Carrying out a plan through `Apply`; an unpaid order changes nothing. */
  function Execute(s: Store, p: Plan): (t: Store)
    requires Payable(s.methods, p)
    ensures t.methods.Keys == s.methods.Keys
    ensures t.usage.Keys == s.usage.Keys + Payees(p)
    ensures p.Unpaid? ==> t == s
  {
    match p
    case FullPayment(id, a) => Apply(s, id, a)
    case MixedPayment(pts, f, r) => Apply(Apply(s, PUNKTY, pts), f, r)
    case Unpaid => s
  }

  /** The conservation of a plan: each method's limit goes down by exactly
      what its ledger entry goes up by, which is what the plan charges it,
      and nothing else about the method changes. */
  lemma ExecuteCharges(s: Store, p: Plan)
    requires Payable(s.methods, p)
    ensures forall id :: id in s.methods ==>
      Execute(s, p).methods[id] == s.methods[id].(limit := s.methods[id].limit - ChargeTo(p, id))
    ensures forall id :: Used(Execute(s, p).usage, id) == Used(s.usage, id) + ChargeTo(p, id)
  {
  }

  /** The engine's step for one order. */
  function Step(s: Store, scan: seq<string>, o: Order): (t: Store)
    requires o.value >= 0
    ensures t.methods.Keys == s.methods.Keys
    ensures forall id :: id in s.methods ==>
      t.methods[id] == s.methods[id].(limit := s.methods[id].limit - ChargeTo(PlanFor(s.methods, scan, o), id))
    ensures forall id :: Used(t.usage, id) == Used(s.usage, id) + ChargeTo(PlanFor(s.methods, scan, o), id)
    ensures PlanFor(s.methods, scan, o).Unpaid? ==> t == s
  {
    var p := PlanFor(s.methods, scan, o);
    assert Payable(s.methods, p) by {
      if p.MixedPayment? { MixedPlanCharges(s.methods, scan, o); }
    }
    ExecuteCharges(s, p);
    Execute(s, p)
  }

  /** `optimizePayments`: every order exactly once, in input order, each
      step seeing the store the previous steps left. */
  function ProcessAll(s: Store, scan: seq<string>, orders: seq<Order>): (t: Store)
    requires ValidOrders(orders)
    ensures t.methods.Keys == s.methods.Keys
    ensures forall id :: id in s.methods ==>
      && t.methods[id].id == s.methods[id].id
      && t.methods[id].discount == s.methods[id].discount
      && s.methods[id].limit - t.methods[id].limit == Used(t.usage, id) - Used(s.usage, id)
  {
    if orders == [] then s
    else Step(ProcessAll(s, scan, orders[..|orders| - 1]), scan, orders[|orders| - 1])
  }

  // ---------------------------------------------------------------- the batch invariant

  /** The invariant of a run that started from the methods `initial`: the
      same methods with the same ids and discounts, every limit lowered by
      exactly its ledger entry, and the store well formed. */
  ghost predicate Conserves(initial: map<string, PaymentMethod>, s: Store) {
    && WellFormed(s)
    && s.methods.Keys == initial.Keys
    && forall id :: id in initial ==>
         && s.methods[id].id == initial[id].id
         && s.methods[id].discount == initial[id].discount
         && initial[id].limit - s.methods[id].limit == Used(s.usage, id)
  }

  /** Carrying out an affordable plan keeps the invariant, and no ledger
      entry goes down and no limit goes up. */
  lemma ExecuteConserves(initial: map<string, PaymentMethod>, s: Store, p: Plan)
    requires Conserves(initial, s) && Affordable(s.methods, p)
    ensures Payable(s.methods, p)
    ensures Conserves(initial, Execute(s, p))
    ensures forall id :: Used(Execute(s, p).usage, id) >= Used(s.usage, id)
    ensures forall id :: id in s.methods ==> Execute(s, p).methods[id].limit <= s.methods[id].limit
  {
    var t := Execute(s, p);
    ExecuteCharges(s, p);
    assert forall id :: ChargeTo(p, id) >= 0;
    assert forall id :: id in s.methods ==> ChargeTo(p, id) <= s.methods[id].limit;
    forall id | id in t.usage
      ensures id in t.methods && t.usage[id] >= 0
    {
      assert Used(t.usage, id) == t.usage[id];
    }
  }

  /** One order keeps the invariant, and no ledger entry goes down and no
      limit goes up. */
  lemma StepConserves(initial: map<string, PaymentMethod>, s: Store, scan: seq<string>, o: Order)
    requires Conserves(initial, s) && o.value >= 0
    ensures Conserves(initial, Step(s, scan, o))
    ensures forall id :: Used(Step(s, scan, o).usage, id) >= Used(s.usage, id)
    ensures forall id :: id in s.methods ==> Step(s, scan, o).methods[id].limit <= s.methods[id].limit
  {
    ChargesWithinLimits(s, scan, o);
    ExecuteConserves(initial, s, PlanFor(s.methods, scan, o));
  }

  /** The run keeps the invariant after any number of orders, starting from
      the initial methods and an empty ledger. */
  lemma {:induction false} ProcessAllConserves(initial: map<string, PaymentMethod>, scan: seq<string>, orders: seq<Order>)
    requires WellFormed(Store(initial, map[])) && ValidOrders(orders)
    ensures Conserves(initial, ProcessAll(Store(initial, map[]), scan, orders))
  {
    if orders != [] {
      var init := orders[..|orders| - 1];
      assert ValidOrders(init) by {
        assert forall i :: 0 <= i < |init| ==> init[i] == orders[i];
      }
      ProcessAllConserves(initial, scan, init);
      StepConserves(initial, ProcessAll(Store(initial, map[]), scan, init), scan, orders[|orders| - 1]);
    }
  }
}
