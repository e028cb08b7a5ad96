/** The optimizer object: the orders, the method store it updates in place
    and the usage ledger it fills, one order at a time. Each method is proved
    to do exactly what module Allocation says of it. */
module Optimizer {
  import opened Money
  import opened Model
  import opened Allocation

  class PaymentOptimizer {
    const orders: seq<Order>
    /** The method ids in declaration order: the order of the fallback search. */
    const scanOrder: seq<string>
    /** The methods as they were configured, before any payment. */
    ghost const initial: map<string, PaymentMethod>
    /** `methodMap`: the store of methods, whose limits payments lower. */
    var methodMap: map<string, PaymentMethod>
    /** `usage`: the ledger of what has been charged to each method. */
    var usage: map<string, int>

    function State(): Store
      reads this
    {
      Store(methodMap, usage)
    }

    /** The object invariant: valid orders, a well-formed configuration whose
        every id the fallback search visits, and limits lowered by exactly
        the ledger entries. */
    ghost predicate Valid()
      reads this
    {
      && ValidOrders(orders)
      && WellFormed(Store(initial, map[]))
      && (forall id :: id in initial ==> id in scanOrder)
      && Conserves(initial, State())
    }

    /** `PaymentOptimizer(orders, methods)`: the store holds each method under
        its id, and the ledger is empty. */
    constructor (orders: seq<Order>, methods: seq<PaymentMethod>)
      requires UniqueIds(methods) && ValidOrders(orders)
      requires forall i :: 0 <= i < |methods| ==> methods[i].limit >= 0 && methods[i].discount <= 100
      ensures Valid()
      ensures this.orders == orders && scanOrder == Ids(methods)
      ensures initial == methodMap == MethodMap(methods) && usage == map[]
    {
      MethodMapKeys(methods);
      this.orders := orders;
      scanOrder := Ids(methods);
      initial := MethodMap(methods);
      methodMap := MethodMap(methods);
      usage := map[];
    }

    /** `optimizePayments`: the store and ledger afterwards are those of the
        fold over all orders in input order; the invariant still holds, so
        every limit has gone down by exactly what the ledger records. */
    method OptimizePayments() returns (result: map<string, int>)
      requires Valid()
      modifies this
      ensures Valid()
      ensures State() == ProcessAll(old(State()), scanOrder, orders)
      ensures result == usage
    {
      ghost var start := State();
      for i := 0 to |orders|
        invariant Valid()
        invariant ValidOrders(orders[..i])
        invariant State() == ProcessAll(start, scanOrder, orders[..i])
      {
        var order := orders[i];
        var paid := TryApplyBestFullPayment(order);
        if !paid {
          TryApplyMixedPointsPayment(order);
        }
        assert orders[..i + 1][..i] == orders[..i];
      }
      assert orders[..|orders|] == orders;
      result := usage;
    }

    /** `tryApplyBestFullPayment`: pays in full exactly when a candidate
        exists, and then makes the engine's step for the order. */
    method TryApplyBestFullPayment(order: Order) returns (paid: bool)
      requires Valid() && order.value >= 0
      modifies this
      ensures Valid()
      ensures paid <==> FullCandidate(old(methodMap), order).Some?
      ensures paid ==> State() == Step(old(State()), scanOrder, order)
      ensures !paid ==> State() == old(State())
    {
      var best := FindBestFullPaymentCandidate(order);
      if best.Some? {
        ChargesWithinLimits(State(), scanOrder, order);
        ExecuteConserves(initial, State(), PlanFor(methodMap, scanOrder, order));
        ApplyPayment(best.value.methodId, best.value.amountToPay);
        return true;
      }
      return false;
    }

    /** `findBestFullPaymentCandidate`: the scan over the promotions and then
        PUNKTY, with a running best that only a strictly greater discount
        replaces, yields the candidate of `FullCandidate`. */
    method FindBestFullPaymentCandidate(order: Order) returns (best: Option<PaymentCandidate>)
      requires order.value >= 0
      ensures best == FullCandidate(methodMap, order)
    {
      var orderValue := order.value;
      var bestDiscount := 0;
      var bestMethod: Option<string> := None;
      var promotions := Promotions(order);
      for i := 0 to |promotions|
        invariant Best(bestDiscount, bestMethod) == BestOf(methodMap, promotions[..i], orderValue)
      {
        var methodId := promotions[i];
        if CanFullyPayWith(methodMap, methodId, orderValue) {
          var discount := Discount(orderValue, methodMap[methodId].discount);
          if discount > bestDiscount {
            bestDiscount := discount;
            bestMethod := Some(methodId);
          }
        }
        assert promotions[..i + 1][..i] == promotions[..i];
      }
      assert Candidates(order)[..|promotions|] == promotions[..|promotions|];
      if CanFullyPayWith(methodMap, PUNKTY, orderValue) {
        var discount := Discount(orderValue, methodMap[PUNKTY].discount);
        if discount > bestDiscount {
          bestDiscount := discount;
          bestMethod := Some(PUNKTY);
        }
      }
      best := if bestMethod.Some? then Some(PaymentCandidate(bestMethod.value, orderValue - bestDiscount)) else None;
    }

    /** `tryApplyMixedPointsPayment`: carries out the mixed plan, which is
        all or nothing: an order failing any gate leaves the store and the
        ledger as they were. */
    method TryApplyMixedPointsPayment(order: Order)
      requires Valid() && order.value >= 0
      modifies this
      ensures Valid()
      ensures State() == Execute(old(State()), MixedPlan(old(methodMap), scanOrder, order))
    {
      ghost var before := State();
      ghost var plan := MixedPlan(methodMap, scanOrder, order);
      if !CanApplyPartialPoints(methodMap, order) {
        assert plan == Unpaid;
        return;
      }
      var value := order.value;
      var tenPercent := TenPercent(value);
      var toPay := value - tenPercent;
      var availablePoints := methodMap[PUNKTY].limit;
      var pointsToUse := Min(toPay, availablePoints);
      PointsGateFollowsFromLimitGate(methodMap, order);
      if pointsToUse < tenPercent {
        assert false;
        return;
      }
      var remaining := toPay - pointsToUse;
      var fallbackMethod := FindMethodToCoverRemainder(remaining);
      if fallbackMethod.Some? {
        assert plan == MixedPayment(pointsToUse, fallbackMethod.value, remaining);
        MixedPlanCharges(methodMap, scanOrder, order);
        ExecuteConserves(initial, before, plan);
        ApplyPayment(PUNKTY, pointsToUse);
        ApplyPayment(fallbackMethod.value, remaining);
        assert State() == Apply(Apply(before, PUNKTY, pointsToUse), fallbackMethod.value, remaining);
      } else {
        assert plan == Unpaid;
      }
    }

    /** `findMethodToCoverRemainder`: some method other than PUNKTY whose
        limit covers `remainder`, or none when there is no such method; the
        search goes in declaration order. */
    method FindMethodToCoverRemainder(remainder: int) returns (found: Option<string>)
      requires Valid()
      ensures found.Some? ==>
        found.value in methodMap && found.value != PUNKTY && methodMap[found.value].limit >= remainder
      ensures found.None? ==> forall id :: id in methodMap && id != PUNKTY ==> methodMap[id].limit < remainder
      ensures found == FirstCovering(methodMap, scanOrder, remainder)
    {
      var i := 0;
      while i < |scanOrder|
        invariant 0 <= i <= |scanOrder|
        invariant FirstCovering(methodMap, scanOrder[i..], remainder) == FirstCovering(methodMap, scanOrder, remainder)
      {
        var id := scanOrder[i];
        if id != PUNKTY && CanFullyPayWith(methodMap, id, remainder) {
          return Some(id);
        }
        assert scanOrder[i..][1..] == scanOrder[i + 1..];
        i := i + 1;
      }
      return None;
    }

    /** `applyPayment`: lowers the limit of `methodId` by `amount` and
        merge-adds `amount` into its ledger entry. */
    method ApplyPayment(methodId: string, amount: int)
      requires methodId in methodMap
      modifies this
      ensures State() == Apply(old(State()), methodId, amount)
    {
      var pm := methodMap[methodId];
      methodMap := methodMap[methodId := pm.(limit := pm.limit - amount)];
      if methodId in usage {
        usage := usage[methodId := usage[methodId] + amount];
      } else {
        usage := usage[methodId := amount];
      }
    }
  }
}
