/** The unit-test cases of the optimizer, stated as facts about a whole run.
    Amounts are cents: 100.00 is 10000. */
module Scenarios {
  import opened Money
  import opened Model
  import opened Allocation

  /** The ledger a run over `orders` produces from `methods` and an empty ledger. */
  function Run(orders: seq<Order>, methods: seq<PaymentMethod>): map<string, int>
    requires UniqueIds(methods) && ValidOrders(orders)
  {
    ProcessAll(Store(MethodMap(methods), map[]), Ids(methods), orders).usage
  }

  /** CARD2's 10% beats CARD1's 5%; PUNKTY, with limit 0, cannot pay. */
  lemma FullPaymentPicksLargestDiscount()
    ensures Run([Order("O1", 10000, Some(["CARD1", "CARD2"]))],
                [PaymentMethod("CARD1", 5, 10000), PaymentMethod("CARD2", 10, 10000), PaymentMethod(PUNKTY, 15, 0)])
            == map["CARD2" := 9000]
  {
    var ms := [PaymentMethod("CARD1", 5, 10000), PaymentMethod("CARD2", 10, 10000), PaymentMethod(PUNKTY, 15, 0)];
    var o := Order("O1", 10000, Some(["CARD1", "CARD2"]));
    var m := MethodMap(ms);
    assert m == map["CARD1" := ms[0], "CARD2" := ms[1], PUNKTY := ms[2]];
    var cs := Candidates(o);
    assert cs == ["CARD1", "CARD2", PUNKTY];
    assert BestOf(m, cs[..1], 10000) == Best(500, Some("CARD1"));
    assert BestOf(m, cs[..2], 10000) == Best(1000, Some("CARD2"));
    assert BestOf(m, cs, 10000) == Best(1000, Some("CARD2"));
    var s0 := Store(m, map[]);
    assert [o][..0] == [];
    assert ProcessAll(s0, Ids(ms), [o]) == Step(s0, Ids(ms), o);
  }

  /** PUNKTY's 20% beats CARD1's 10% when both can pay the whole order. */
  lemma FullPaymentPrefersPointsDiscount()
    ensures Run([Order("O1", 10000, Some(["CARD1"]))],
                [PaymentMethod("CARD1", 10, 10000), PaymentMethod(PUNKTY, 20, 10000)])
            == map[PUNKTY := 8000]
  {
    var ms := [PaymentMethod("CARD1", 10, 10000), PaymentMethod(PUNKTY, 20, 10000)];
    var o := Order("O1", 10000, Some(["CARD1"]));
    var m := MethodMap(ms);
    assert m == map["CARD1" := ms[0], PUNKTY := ms[1]];
    var cs := Candidates(o);
    assert cs == ["CARD1", PUNKTY];
    assert BestOf(m, cs[..1], 10000) == Best(1000, Some("CARD1"));
    assert BestOf(m, cs, 10000) == Best(2000, Some(PUNKTY));
    var s0 := Store(m, map[]);
    assert [o][..0] == [];
    assert ProcessAll(s0, Ids(ms), [o]) == Step(s0, Ids(ms), o);
  }

  /** No method can pay 100.00 in full: PUNKTY pays 50.00 and CARD1 the other 40.00. */
  lemma MixedPaymentWithFallback()
    ensures Run([Order("O1", 10000, None)],
                [PaymentMethod("CARD1", 10, 10000), PaymentMethod(PUNKTY, 15, 5000)])
            == map[PUNKTY := 5000, "CARD1" := 4000]
  {
    var ms := [PaymentMethod("CARD1", 10, 10000), PaymentMethod(PUNKTY, 15, 5000)];
    var o := Order("O1", 10000, None);
    var m := MethodMap(ms);
    assert m == map["CARD1" := ms[0], PUNKTY := ms[1]];
    assert Candidates(o) == [PUNKTY];
    assert BestOf(m, [PUNKTY], 10000) == Best(0, None);
    assert Ids(ms) == ["CARD1", PUNKTY];
    assert FirstCovering(m, Ids(ms), 4000) == Some("CARD1");
    assert TenPercent(10000) == 1000;
    assert MixedPlan(m, Ids(ms), o) == MixedPayment(5000, "CARD1", 4000);
    var s0 := Store(m, map[]);
    assert Step(s0, Ids(ms), o) == Apply(Apply(s0, PUNKTY, 5000), "CARD1", 4000);
    assert [o][..0] == [];
    assert ProcessAll(s0, Ids(ms), [o]) == Step(s0, Ids(ms), o);
  }

  /** Points of 5.00 are below the mandatory 10.00, and CARD1 cannot pay
      100.00: the order stays unpaid and the ledger empty. */
  lemma NotEnoughPointsOrCard()
    ensures Run([Order("O1", 10000, None)],
                [PaymentMethod("CARD1", 10, 3000), PaymentMethod(PUNKTY, 15, 500)])
            == map[]
  {
    var ms := [PaymentMethod("CARD1", 10, 3000), PaymentMethod(PUNKTY, 15, 500)];
    var o := Order("O1", 10000, None);
    var m := MethodMap(ms);
    assert m == map["CARD1" := ms[0], PUNKTY := ms[1]];
    assert Candidates(o) == [PUNKTY];
    assert BestOf(m, [PUNKTY], 10000) == Best(0, None);
    var s0 := Store(m, map[]);
    assert [o][..0] == [];
    assert ProcessAll(s0, Ids(ms), [o]) == Step(s0, Ids(ms), o);
  }

  /** Without promotions PUNKTY still pays in full, at its own 15%. */
  lemma PointsPayInFullWithoutPromotions()
    ensures Run([Order("O1", 8000, None)],
                [PaymentMethod("CARD1", 10, 10000), PaymentMethod(PUNKTY, 15, 8000)])
            == map[PUNKTY := 6800]
  {
    var ms := [PaymentMethod("CARD1", 10, 10000), PaymentMethod(PUNKTY, 15, 8000)];
    var o := Order("O1", 8000, None);
    var m := MethodMap(ms);
    assert m == map["CARD1" := ms[0], PUNKTY := ms[1]];
    assert Candidates(o) == [PUNKTY];
    assert BestOf(m, [PUNKTY], 8000) == Best(1200, Some(PUNKTY));
    var s0 := Store(m, map[]);
    assert [o][..0] == [];
    assert ProcessAll(s0, Ids(ms), [o]) == Step(s0, Ids(ms), o);
  }

  /** Points of exactly 10.00 pass the gate; CARD1 pays the remaining 80.00. */
  lemma ExactTenPercentPoints()
    ensures Run([Order("O1", 10000, None)],
                [PaymentMethod("CARD1", 0, 10000), PaymentMethod(PUNKTY, 15, 1000)])
            == map[PUNKTY := 1000, "CARD1" := 8000]
  {
    var ms := [PaymentMethod("CARD1", 0, 10000), PaymentMethod(PUNKTY, 15, 1000)];
    var o := Order("O1", 10000, None);
    var m := MethodMap(ms);
    assert m == map["CARD1" := ms[0], PUNKTY := ms[1]];
    assert Candidates(o) == [PUNKTY];
    assert BestOf(m, [PUNKTY], 10000) == Best(0, None);
    assert Ids(ms) == ["CARD1", PUNKTY];
    assert FirstCovering(m, Ids(ms), 8000) == Some("CARD1");
    assert TenPercent(10000) == 1000;
    assert MixedPlan(m, Ids(ms), o) == MixedPayment(1000, "CARD1", 8000);
    var s0 := Store(m, map[]);
    assert Step(s0, Ids(ms), o) == Apply(Apply(s0, PUNKTY, 1000), "CARD1", 8000);
    assert [o][..0] == [];
    assert ProcessAll(s0, Ids(ms), [o]) == Step(s0, Ids(ms), o);
  }

  /** The first order lowers CARD1 to 10.00, so the second order finds no
      method able to pay and stays unpaid. */
  lemma LaterOrdersSeeReducedLimits()
    ensures Run([Order("O1", 10000, Some(["CARD1"])), Order("O2", 10000, Some(["CARD1"]))],
                [PaymentMethod("CARD1", 10, 10000), PaymentMethod(PUNKTY, 0, 0)])
            == map["CARD1" := 9000]
  {
    var ms := [PaymentMethod("CARD1", 10, 10000), PaymentMethod(PUNKTY, 0, 0)];
    var o1 := Order("O1", 10000, Some(["CARD1"]));
    var o2 := Order("O2", 10000, Some(["CARD1"]));
    var scan := Ids(ms);
    var m := MethodMap(ms);
    assert m == map["CARD1" := ms[0], PUNKTY := ms[1]];
    var s0 := Store(m, map[]);
    var s1 := Store(m["CARD1" := PaymentMethod("CARD1", 10, 1000)], map["CARD1" := 9000]);
    assert Step(s0, scan, o1) == s1 by {
      assert Candidates(o1) == ["CARD1", PUNKTY];
      assert ["CARD1", PUNKTY][..1] == ["CARD1"];
      assert BestOf(m, ["CARD1"], 10000) == Best(1000, Some("CARD1"));
      assert BestOf(m, ["CARD1", PUNKTY], 10000) == Best(1000, Some("CARD1"));
    }
    assert Step(s1, scan, o2) == s1 by {
      assert Candidates(o2) == ["CARD1", PUNKTY];
      assert ["CARD1", PUNKTY][..1] == ["CARD1"];
      assert BestOf(s1.methods, ["CARD1"], 10000) == Best(0, None);
      assert BestOf(s1.methods, ["CARD1", PUNKTY], 10000) == Best(0, None);
      assert !CanApplyPartialPoints(s1.methods, o2);
    }
    var os := [o1, o2];
    assert ProcessAll(s0, scan, [o1]) == s1 by {
      assert [o1][..0] == [];
    }
    assert os[..1] == [o1];
  }

  /** A discount that rounds to zero never wins the full payment: PUNKTY at
      0% could pay 100.00 alone, but the mixed phase then leaves a remainder
      of 0.00 that needs some other method, and there is none. */
  lemma ZeroDiscountNeverPaysInFull()
    ensures Run([Order("O1", 10000, None)], [PaymentMethod(PUNKTY, 0, 100000)]) == map[]
  {
    var ms := [PaymentMethod(PUNKTY, 0, 100000)];
    var o := Order("O1", 10000, None);
    var m := MethodMap(ms);
    assert m == map[PUNKTY := ms[0]];
    assert Candidates(o) == [PUNKTY];
    assert BestOf(m, [PUNKTY], 10000) == Best(0, None);
    assert Ids(ms) == [PUNKTY];
    assert FirstCovering(m, Ids(ms), 0) == None;
    var s0 := Store(m, map[]);
    assert [o][..0] == [];
    assert ProcessAll(s0, Ids(ms), [o]) == Step(s0, Ids(ms), o);
  }

  /** A remainder of 0.00 is still charged to a fallback method, which then
      gets a ledger entry of 0.00. */
  lemma ZeroRemainderCreatesLedgerEntry()
    ensures Run([Order("O1", 1000, None)],
                [PaymentMethod("CARD1", 0, 0), PaymentMethod(PUNKTY, 0, 900)])
            == map[PUNKTY := 900, "CARD1" := 0]
  {
    var ms := [PaymentMethod("CARD1", 0, 0), PaymentMethod(PUNKTY, 0, 900)];
    var o := Order("O1", 1000, None);
    var m := MethodMap(ms);
    assert m == map["CARD1" := ms[0], PUNKTY := ms[1]];
    assert Candidates(o) == [PUNKTY];
    assert BestOf(m, [PUNKTY], 1000) == Best(0, None);
    assert Ids(ms) == ["CARD1", PUNKTY];
    assert FirstCovering(m, Ids(ms), 0) == Some("CARD1");
    assert TenPercent(1000) == 100;
    assert MixedPlan(m, Ids(ms), o) == MixedPayment(900, "CARD1", 0);
    var s0 := Store(m, map[]);
    assert Step(s0, Ids(ms), o) == Apply(Apply(s0, PUNKTY, 900), "CARD1", 0);
    assert [o][..0] == [];
    assert ProcessAll(s0, Ids(ms), [o]) == Step(s0, Ids(ms), o);
  }
}
