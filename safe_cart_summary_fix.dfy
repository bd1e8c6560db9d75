/** The "safe" cart-summary repair on `sale.order`: orders without a price
    list receive the first active price list; no price list is created or
    edited. The source guards each write with `order.pricelist_id is False
    or order.pricelist_id is None`, which never holds, because a many2one
    field always reads as a record set (empty when unset). The as-written
    behaviour is modelled beside the intended one. */
module SafeCartSummaryFix {
  import opened OrderStore

  // ---------------------------------------------------------------------
  // Reading a many2one field

  /** What a Python expression may evaluate to when compared by identity. */
  datatype FieldRead = PyFalse | PyNone | Recordset(id: nat)

  /** Reading a many2one field yields a record set: the linked record, or
      the empty record set (id 0) when the field is unset. */
  function ReadMany2one(id: nat): (v: FieldRead)
    ensures v.Recordset? && v.id == id
  {
    Recordset(id)
  }

  /** The guard `v is False or v is None`. */
  predicate IsFalseOrNone(v: FieldRead) {
    v == PyFalse || v == PyNone
  }

  /** No field read is `False` or `None`, set or not. */
  lemma IdentityGuardNeverHolds(id: nat)
    ensures !IsFalseOrNone(ReadMany2one(id))
    ensures !(ReadMany2one(id) == PyNone)
  {
  }

  // ---------------------------------------------------------------------
  // Assigning a price list to the orders that lack one

  /** The order with price list `p` if it had none. */
  function WithPricelist(o: SaleOrder, p: nat): (r: SaleOrder)
    ensures o.pricelist != 0 ==> r == o
    ensures o.pricelist == 0 ==> r == o.(pricelist := p)
  {
    if o.pricelist == 0 then o.(pricelist := p) else o
  }

  /** Every order without a price list receives `p`; the others are kept. */
  function AssignMissingPricelist(orders: seq<SaleOrder>, p: nat): (r: seq<SaleOrder>)
    ensures |r| == |orders|
    ensures forall i :: 0 <= i < |orders| ==> r[i] == WithPricelist(orders[i], p)
  {
    if orders == [] then [] else [WithPricelist(orders[0], p)] + AssignMissingPricelist(orders[1..], p)
  }

  /** With a price list to give, no order is left without one. */
  lemma AssignedOrdersHavePricelists(orders: seq<SaleOrder>, p: nat)
    requires p != 0
    ensures forall i :: 0 <= i < |orders| ==> AssignMissingPricelist(orders, p)[i].pricelist != 0
  {
  }

  /** Assigning twice is assigning once, and assigning nothing (0) changes
      nothing. */
  lemma AssignIsIdempotent(orders: seq<SaleOrder>, p: nat)
    ensures AssignMissingPricelist(AssignMissingPricelist(orders, p), p) == AssignMissingPricelist(orders, p)
    ensures AssignMissingPricelist(orders, 0) == orders
  {
  }

  predicate HasOrderWithoutPricelist(orders: seq<SaleOrder>) {
    exists i :: 0 <= i < |orders| && orders[i].pricelist == 0
  }

  /** The orders are left alone when none lacks a price list. */
  lemma AssignWithoutMissing(orders: seq<SaleOrder>, p: nat)
    requires !HasOrderWithoutPricelist(orders)
    ensures AssignMissingPricelist(orders, p) == orders
  {
  }

  /** The number of orders without a price list. */
  function CountWithoutPricelist(orders: seq<SaleOrder>): (n: nat)
    ensures n <= |orders|
    ensures n == 0 <==> !HasOrderWithoutPricelist(orders)
  {
    if orders == [] then 0
    else
      var last := orders[|orders| - 1];
      assert forall i :: 0 <= i < |orders| - 1 ==> orders[..|orders| - 1][i] == orders[i];
      CountWithoutPricelist(orders[..|orders| - 1]) + (if last.pricelist == 0 then 1 else 0)
  }

  /** The write loop of the repairs: every order without a price list is
      given `p`, one order at a time; `corrected` counts the writes. */
  method WriteMissingPricelists(s: Store, p: nat) returns (corrected: nat)
    requires s.Valid() && 1 <= p <= |s.pricelists|
    modifies s
    ensures s.Valid()
    ensures s.orders == AssignMissingPricelist(old(s.orders), p)
    ensures corrected == CountWithoutPricelist(old(s.orders))
    ensures s.pricelists == old(s.pricelists) && s.partners == old(s.partners)
  {
    corrected := 0;
    var k := 0;
    while k < |s.orders|
      invariant s.Valid() && 0 <= k <= |s.orders| == |old(s.orders)|
      invariant s.pricelists == old(s.pricelists) && s.partners == old(s.partners)
      invariant forall i :: 0 <= i < k ==> s.orders[i] == WithPricelist(old(s.orders)[i], p)
      invariant forall i :: k <= i < |s.orders| ==> s.orders[i] == old(s.orders)[i]
      invariant corrected == CountWithoutPricelist(old(s.orders)[..k])
    {
      assert old(s.orders)[..k + 1][..k] == old(s.orders)[..k];
      if s.orders[k].pricelist == 0 {
        s.WriteOrder(k + 1, s.orders[k].(pricelist := p));
        corrected := corrected + 1;
      }
      k := k + 1;
    }
    assert old(s.orders)[..k] == old(s.orders);
  }

  // ---------------------------------------------------------------------
  // As written: the identity guard stops every write

  /** The orders after the loop as written: an order is written only when
      its price list reads as `False` or `None`. */
  function AssignWhenGuard(orders: seq<SaleOrder>, p: nat): seq<SaleOrder>
  {
    if orders == [] then []
    else
      var o := orders[0];
      [if IsFalseOrNone(ReadMany2one(o.pricelist)) then o.(pricelist := p) else o] + AssignWhenGuard(orders[1..], p)
  }

  /** The guarded loop writes nothing. */
  lemma {:induction false} AssignWhenGuardWritesNothing(orders: seq<SaleOrder>, p: nat)
    ensures AssignWhenGuard(orders, p) == orders
  {
    if orders != [] {
      AssignWhenGuardWritesNothing(orders[1..], p);
      IdentityGuardNeverHolds(orders[0].pricelist);
      assert [orders[0]] + orders[1..] == orders;
    }
  }

  /** `_safe_fix_cart_summary_only` as written: the orders after the run,
      and its result. */
  function SafeFixAsWritten(orders: seq<SaleOrder>, pricelists: seq<Pricelist>): (r: (seq<SaleOrder>, bool))
    ensures r.0 == orders
    ensures r.1 <==> !HasOrderWithoutPricelist(orders) || FirstActivePricelist(pricelists) != 0
  {
    AssignWhenGuardWritesNothing(orders, FirstActivePricelist(pricelists));
    if !HasOrderWithoutPricelist(orders) then (orders, true)
    else
      var p := FirstActivePricelist(pricelists);
      if p == 0 then (orders, false) else (AssignWhenGuard(orders, p), true)
  }

  /** An order without a price list, next to an active price list, stays
      without one, and the run still reports success. */
  lemma SafeFixAsWrittenLeavesOrderBroken()
    ensures var orders := [SaleOrder("S00001", 0, 0, 1, 0.0)];
      var pricelists := [Pricelist("Public Pricelist", true, 1)];
      var r := SafeFixAsWritten(orders, pricelists);
      r.1 && r.0[0].pricelist == 0 && AssignMissingPricelist(orders, FirstActivePricelist(pricelists))[0].pricelist == 1
  {
    var orders := [SaleOrder("S00001", 0, 0, 1, 0.0)];
    assert HasOrderWithoutPricelist(orders) by { assert orders[0].pricelist == 0; }
  }

  /** `_ensure_cart_summary_works_without_modifying_pricelists` as written:
      no order is written, and the run reports success. */
  function EnsureWorksAsWritten(orders: seq<SaleOrder>, pricelists: seq<Pricelist>): (r: (seq<SaleOrder>, bool))
    ensures r == (orders, true)
  {
    AssignWhenGuardWritesNothing(orders, FirstActivePricelist(pricelists));
    (AssignWhenGuard(orders, FirstActivePricelist(pricelists)), true)
  }

  /** Order `k` with price list `p`. */
  function SetPricelistAt(orders: seq<SaleOrder>, k: nat, p: nat): seq<SaleOrder> {
    if 1 <= k <= |orders| then orders[k - 1 := orders[k - 1].(pricelist := p)] else orders
  }

  /** The empty order reference. */
  const NoOrder: nat := 0

  /** `_get_cart_summary_safe_context` as written: the context's order is
      handed out whether or not it has a price list. */
  function SafeContextAsWritten(orders: seq<SaleOrder>, pricelists: seq<Pricelist>, current: nat): (r: (seq<SaleOrder>, nat))
    requires current <= |orders|
    ensures r == (orders, current)
  {
    if current == 0 then (orders, 0)
    else if IsFalseOrNone(ReadMany2one(orders[current - 1].pricelist)) then
      var p := FirstActivePricelist(pricelists);
      if p != 0 then (SetPricelistAt(orders, current, p), current) else (orders, NoOrder)
    else (orders, current)
  }

  /** The context's order is handed out without a price list although an
      active price list exists. */
  lemma SafeContextAsWrittenHandsOutBrokenOrder()
    ensures var orders := [SaleOrder("S00001", 0, 0, 1, 0.0)];
      var r := SafeContextAsWritten(orders, [Pricelist("Public Pricelist", true, 1)], 1);
      r.1 == 1 && r.0[r.1 - 1].pricelist == 0
  {
  }

  // ---------------------------------------------------------------------
  // As intended: an unset price list is checked for falsiness

  /** `_safe_fix_cart_summary_only`, with the guard corrected to `not
      order.pricelist_id`: when some order lacks a price list, the first
      active price list is given to every such order; the run fails only
      when there is none to give. */
  method SafeFixCartSummaryOnly(s: Store) returns (ok: bool)
    requires s.Valid()
    modifies s
    ensures s.Valid()
    ensures s.pricelists == old(s.pricelists) && s.partners == old(s.partners)
    ensures ok <==> !HasOrderWithoutPricelist(old(s.orders)) || FirstActivePricelist(s.pricelists) != 0
    ensures s.orders == AssignMissingPricelist(old(s.orders), FirstActivePricelist(s.pricelists))
    ensures ok ==> !HasOrderWithoutPricelist(s.orders)
  {
    var p := FirstActivePricelist(s.pricelists);
    if !HasOrderWithoutPricelist(s.orders) {
      AssignWithoutMissing(s.orders, p);
      return true;
    }
    if p == 0 {
      AssignIsIdempotent(s.orders, 0);
      return false;
    }
    var _ := WriteMissingPricelists(s, p);
    AssignedOrdersHavePricelists(old(s.orders), p);
    return true;
  }

  /** `_ensure_cart_summary_works_without_modifying_pricelists`, with the
      guard corrected: every order without a price list receives the first
      active one when there is one; a price list without a currency is only
      reported. The run always succeeds. */
  method EnsureCartSummaryWorks(s: Store) returns (ok: bool)
    requires s.Valid()
    modifies s
    ensures s.Valid()
    ensures s.pricelists == old(s.pricelists) && s.partners == old(s.partners)
    ensures s.orders == AssignMissingPricelist(old(s.orders), FirstActivePricelist(s.pricelists))
    ensures ok
  {
    var p := FirstActivePricelist(s.pricelists);
    if p == 0 {
      AssignIsIdempotent(s.orders, 0);
      return true;
    }
    var _ := WriteMissingPricelists(s, p);
    return true;
  }

  /** `_get_cart_summary_safe_context`, with the guard corrected: the
      context's order (0 for none), given the first active price list when
      it has none; nothing when no price list can be given. */
  method SafeContext(s: Store, current: nat) returns (order: nat)
    requires s.Valid() && current <= |s.orders|
    modifies s
    ensures s.Valid()
    ensures s.pricelists == old(s.pricelists) && s.partners == old(s.partners)
    ensures current == 0 ==> order == 0 && s.orders == old(s.orders)
    ensures current != 0 ==>
      s.orders == old(s.orders)[current - 1 := WithPricelist(old(s.orders)[current - 1], FirstActivePricelist(s.pricelists))]
    ensures order == 0 <==> current == 0 || s.orders[current - 1].pricelist == 0
    ensures order != 0 ==> order == current && s.orders[order - 1].pricelist != 0
  {
    if current == 0 {
      return 0;
    }
    var o := s.orders[current - 1];
    if o.pricelist == 0 {
      var p := FirstActivePricelist(s.pricelists);
      if p != 0 {
        s.WriteOrder(current, o.(pricelist := p));
      } else {
        assert s.orders == old(s.orders)[current - 1 := o];
        return 0;
      }
    } else {
      assert s.orders == old(s.orders)[current - 1 := o];
    }
    return current;
  }

  /** `_prevent_cart_summary_error_without_changes`: the corrected repair,
      and its result. */
  method PreventCartSummaryError(s: Store) returns (ok: bool)
    requires s.Valid()
    modifies s
    ensures s.Valid()
    ensures s.pricelists == old(s.pricelists) && s.partners == old(s.partners)
    ensures s.orders == AssignMissingPricelist(old(s.orders), FirstActivePricelist(s.pricelists))
    ensures ok <==> !HasOrderWithoutPricelist(old(s.orders)) || FirstActivePricelist(s.pricelists) != 0
  {
    ok := SafeFixCartSummaryOnly(s);
  }

  /** `_emergency_cart_summary_fix_safe`: both corrected repairs, then
      success; the second finds nothing left to do. */
  method EmergencyCartSummaryFixSafe(s: Store) returns (ok: bool)
    requires s.Valid()
    modifies s
    ensures s.Valid()
    ensures s.pricelists == old(s.pricelists) && s.partners == old(s.partners)
    ensures s.orders == AssignMissingPricelist(old(s.orders), FirstActivePricelist(s.pricelists))
    ensures ok
  {
    var _ := SafeFixCartSummaryOnly(s);
    ok := EnsureCartSummaryWorks(s);
    AssignIsIdempotent(old(s.orders), FirstActivePricelist(s.pricelists));
  }
}
