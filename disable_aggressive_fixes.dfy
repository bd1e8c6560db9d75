/** The switch-off of the aggressive repairs on `sale.order`: only the
    minimal repair remains, which gives orders without a price list the
    first active price list. Its write is guarded by `order.pricelist_id is
    None`, which never holds; once corrected, the minimal repair is the
    safe cart-summary repair. */
module DisableAggressiveFixes {
  import opened OrderStore
  import opened SafeCartSummaryFix

  /** `_disable_aggressive_fixes`: only logs, and reports success. */
  function DisableAggressiveFixesFlag(): (ok: bool)
    ensures ok
  {
    true
  }

  /** The orders after the loop as written: an order is written only when
      its price list reads as `None`. */
  function AssignWhenNone(orders: seq<SaleOrder>, p: nat): seq<SaleOrder>
  {
    if orders == [] then []
    else
      var o := orders[0];
      [if ReadMany2one(o.pricelist) == PyNone then o.(pricelist := p) else o] + AssignWhenNone(orders[1..], p)
  }

  /** The `is None` loop writes nothing. */
  lemma {:induction false} AssignWhenNoneWritesNothing(orders: seq<SaleOrder>, p: nat)
    ensures AssignWhenNone(orders, p) == orders
  {
    if orders != [] {
      AssignWhenNoneWritesNothing(orders[1..], p);
      IdentityGuardNeverHolds(orders[0].pricelist);
      assert [orders[0]] + orders[1..] == orders;
    }
  }

  /** `_safe_minimal_fix_only` as written: the orders after the run, and its
      result. The search for `pricelist_id = None` finds the orders without
      a price list, but none of them is written. */
  function MinimalFixAsWritten(orders: seq<SaleOrder>, pricelists: seq<Pricelist>): (r: (seq<SaleOrder>, bool))
    ensures r.0 == orders
    ensures r.1 <==> !HasOrderWithoutPricelist(orders) || FirstActivePricelist(pricelists) != 0
  {
    AssignWhenNoneWritesNothing(orders, FirstActivePricelist(pricelists));
    if !HasOrderWithoutPricelist(orders) then (orders, true)
    else
      var p := FirstActivePricelist(pricelists);
      if p == 0 then (orders, false) else (AssignWhenNone(orders, p), true)
  }

  /** An order without a price list stays without one next to an active
      price list, while the run reports success. */
  lemma MinimalFixAsWrittenLeavesOrderBroken()
    ensures var orders := [SaleOrder("S00001", 0, 0, 1, 0.0)];
      var pricelists := [Pricelist("Public Pricelist", true, 1)];
      var r := MinimalFixAsWritten(orders, pricelists);
      r.1 && r.0[0].pricelist == 0 && AssignMissingPricelist(orders, FirstActivePricelist(pricelists))[0].pricelist == 1
  {
    var orders := [SaleOrder("S00001", 0, 0, 1, 0.0)];
    assert HasOrderWithoutPricelist(orders) by { assert orders[0].pricelist == 0; }
  }

  /** `_emergency_cart_summary_fix_disabled`: the minimal repair, with its
      guard corrected (which makes it the safe cart-summary repair), and its
      result. */
  method EmergencyCartSummaryFixDisabled(s: Store) returns (ok: bool)
    requires s.Valid()
    modifies s
    ensures s.Valid()
    ensures s.pricelists == old(s.pricelists) && s.partners == old(s.partners)
    ensures s.orders == AssignMissingPricelist(old(s.orders), FirstActivePricelist(s.pricelists))
    ensures ok <==> !HasOrderWithoutPricelist(old(s.orders)) || FirstActivePricelist(s.pricelists) != 0
  {
    ok := SafeFixCartSummaryOnly(s);
  }

  /** `_prevent_any_pricelist_modifications`: lists the price lists, changes
      nothing, and reports success. */
  function PreventAnyPricelistModifications(pricelists: seq<Pricelist>): (ok: bool)
    ensures ok
  {
    true
  }
}
