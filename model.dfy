/** The records the optimizer works on: orders, payment methods, and the
    candidate the full-payment phase selects. Amounts are cents (see Money). */
module Model {

  /** The reserved identifier of the loyalty-points method. */
  const PUNKTY: string := "PUNKTY"

  datatype Option<T> = None | Some(value: T)

  /** An order: `promotions` is `None` where the input gave no list. */
  datatype Order = Order(id: string, value: int, promotions: Option<seq<string>>)

  /** A payment method; `limit` is the capacity still left to spend. */
  datatype PaymentMethod = PaymentMethod(id: string, discount: nat, limit: int)

  /** The method chosen to pay an order in full and what it is charged. */
  datatype PaymentCandidate = PaymentCandidate(methodId: string, amountToPay: int)

  /** `getPromotions`: an absent promotion list means no promotions at all. */
  function Promotions(o: Order): (ps: seq<string>)
    ensures o.promotions.None? ==> ps == []
    ensures o.promotions.Some? ==> ps == o.promotions.value
  {
    match o.promotions
    case None => []
    case Some(list) => list
  }

  predicate UniqueIds(methods: seq<PaymentMethod>) {
    forall i, j :: 0 <= i < j < |methods| ==> methods[i].id != methods[j].id
  }

  /** Every order value is non-negative. */
  predicate ValidOrders(orders: seq<Order>) {
    forall i :: 0 <= i < |orders| ==> orders[i].value >= 0
  }

  /** The identifiers of a method list, in declaration order. */
  function Ids(methods: seq<PaymentMethod>): (ids: seq<string>)
    ensures |ids| == |methods|
    ensures forall i :: 0 <= i < |methods| ==> ids[i] == methods[i].id
  {
    if methods == [] then [] else Ids(methods[..|methods| - 1]) + [methods[|methods| - 1].id]
  }

  /** The method store built by `Collectors.toMap(PaymentMethod::getId, ...)`:
      with unique identifiers, each method is found under its own id, and
      nothing else is in the map. */
  function MethodMap(methods: seq<PaymentMethod>): (m: map<string, PaymentMethod>)
    requires UniqueIds(methods)
    ensures forall i :: 0 <= i < |methods| ==> methods[i].id in m && m[methods[i].id] == methods[i]
    ensures forall id :: id in m ==> exists i :: 0 <= i < |methods| && methods[i].id == id
  {
    if methods == [] then map[]
    else
      var last := methods[|methods| - 1];
      MethodMap(methods[..|methods| - 1])[last.id := last]
  }

  /** Every key of the store is the id of the method filed under it, and an
      id of the declared list. */
  lemma MethodMapKeys(methods: seq<PaymentMethod>)
    requires UniqueIds(methods)
    ensures forall id :: id in MethodMap(methods) ==> MethodMap(methods)[id].id == id && id in Ids(methods)
  {
  }
}
