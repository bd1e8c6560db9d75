/** The website's order guarantee: the order the shop hands to the cart
    summary must have a price list with a currency, and a partner. A broken
    order is repaired with records that already exist (the first active
    price list, the first customer); no price list or partner is ever
    created, and a price list without a currency is never edited. The
    template interceptors share this repair. */
module OrderGuarantee {
  import opened OrderStore

  /** An order the cart summary can show: it has a price list, the price
      list has a currency, and it has a partner. */
  predicate IsCartReady(o: SaleOrder, pricelists: seq<Pricelist>) {
    o.pricelist != 0 && PricelistCurrency(pricelists, o.pricelist) != 0 && o.partner != 0
  }

  /** `_is_order_valid_for_cart_summary`: order `k` exists and is ready. */
  predicate IsOrderValid(orders: seq<SaleOrder>, pricelists: seq<Pricelist>, k: nat) {
    1 <= k <= |orders| && IsCartReady(orders[k - 1], pricelists)
  }

  /** The order after `_fix_order_for_cart_summary`, and what the repair
      returned. A missing price list is replaced by the first active one; a
      price list without a currency stops the repair; a missing partner is
      replaced by the first customer. Writes already done stay done when a
      later step gives up. */
  function ConservativeFix(o: SaleOrder, pricelists: seq<Pricelist>, partners: seq<PartnerRecord>): (r: (SaleOrder, bool))
    ensures r.1 <==> IsCartReady(r.0, pricelists)
    ensures r.0 == o.(pricelist := r.0.pricelist, partner := r.0.partner)
    ensures o.pricelist != 0 ==> r.0.pricelist == o.pricelist
    ensures o.partner != 0 ==> r.0.partner == o.partner
    ensures r.0.pricelist <= |pricelists| || r.0.pricelist == o.pricelist
    ensures r.0.partner <= |partners| || r.0.partner == o.partner
  {
    var o1 := if o.pricelist == 0 then o.(pricelist := FirstActivePricelist(pricelists)) else o;
    if o1.pricelist == 0 then (o1, false)
    else if PricelistCurrency(pricelists, o1.pricelist) == 0 then (o1, false)
    else if o1.partner != 0 then (o1, true)
    else
      var c := FirstCustomer(partners);
      if c == 0 then (o1, false) else (o1.(partner := c), true)
  }

  /** A ready order is left exactly as it is, and the repair reports
      success. */
  lemma FixLeavesReadyOrder(o: SaleOrder, pricelists: seq<Pricelist>, partners: seq<PartnerRecord>)
    requires IsCartReady(o, pricelists)
    ensures ConservativeFix(o, pricelists, partners) == (o, true)
  {
  }

  /** Repairing a repaired order changes nothing. */
  lemma {:induction false} FixIsIdempotent(o: SaleOrder, pricelists: seq<Pricelist>, partners: seq<PartnerRecord>)
    ensures var r := ConservativeFix(o, pricelists, partners);
      ConservativeFix(r.0, pricelists, partners) == (r.0, r.1)
  {
    var r := ConservativeFix(o, pricelists, partners);
    if r.1 {
      FixLeavesReadyOrder(r.0, pricelists, partners);
    }
  }

  /** The repair fails exactly when no active price list can be found for
      an order without one, when the price list has no currency, or when no
      customer can be found for an order without a partner. */
  lemma {:induction false} FixFailsOnlyForMissingRecords(o: SaleOrder, pricelists: seq<Pricelist>, partners: seq<PartnerRecord>)
    ensures var pricelist := if o.pricelist != 0 then o.pricelist else FirstActivePricelist(pricelists);
      !ConservativeFix(o, pricelists, partners).1 <==>
        pricelist == 0 || PricelistCurrency(pricelists, pricelist) == 0 ||
        (o.partner == 0 && forall i :: 0 <= i < |partners| ==> !partners[i].customer)
  {
    var pricelist := if o.pricelist != 0 then o.pricelist else FirstActivePricelist(pricelists);
    if pricelist != 0 && PricelistCurrency(pricelists, pricelist) != 0 && o.partner == 0 {
      assert FirstCustomer(partners) == 0 <==> forall i :: 0 <= i < |partners| ==> !partners[i].customer;
    }
  }

  /** `_fix_order_for_cart_summary(order)` (and `_fix_order_for_template_safety`
      of the template interceptors): repair order `k` in place; price lists
      and partners are untouched. */
  method FixOrderForCartSummary(s: Store, k: nat) returns (ok: bool)
    requires s.Valid() && 1 <= k <= |s.orders|
    modifies s
    ensures s.Valid() && |s.orders| == |old(s.orders)|
    ensures (s.orders[k - 1], ok) == ConservativeFix(old(s.orders[k - 1]), s.pricelists, s.partners)
    ensures s.orders == old(s.orders)[k - 1 := s.orders[k - 1]]
    ensures s.pricelists == old(s.pricelists) && s.partners == old(s.partners)
  {
    var o := s.orders[k - 1];
    if o.pricelist == 0 {
      var p := FirstActivePricelist(s.pricelists);
      if p != 0 {
        o := o.(pricelist := p);
        s.WriteOrder(k, o);
      } else {
        return false;
      }
    }
    if PricelistCurrency(s.pricelists, o.pricelist) == 0 {
      return false;
    }
    if o.partner == 0 {
      var c := FirstCustomer(s.partners);
      if c != 0 {
        o := o.(partner := c);
        s.WriteOrder(k, o);
      } else {
        return false;
      }
    }
    return true;
  }

  /** What `_create_default_order_for_cart_summary` needs: an active price
      list, that price list having a currency, and a customer. */
  predicate DefaultOrderCreatable(pricelists: seq<Pricelist>, partners: seq<PartnerRecord>) {
    var p := FirstActivePricelist(pricelists);
    p != 0 && PricelistCurrency(pricelists, p) != 0 && FirstCustomer(partners) != 0
  }

  /** The default order: the first active price list and the first customer. */
  function DefaultCartOrder(pricelists: seq<Pricelist>, partners: seq<PartnerRecord>): (o: SaleOrder)
    ensures DefaultOrderCreatable(pricelists, partners) ==> IsCartReady(o, pricelists)
  {
    SaleOrder("Orden por Defecto - Cart Summary", FirstActivePricelist(pricelists), 0, FirstCustomer(partners), 0.0)
  }

  /** The emergency order on the fixed price list 1 and partner 1. */
  const EmergencyCartOrder := SaleOrder("Orden de Emergencia - Cart Summary", 1, 0, 1, 0.0)

  /** `_create_default_order_for_cart_summary`: create an order from the
      first active price list, provided it has a currency, and the first
      customer; nothing (0) when either is missing. */
  method CreateDefaultOrderForCartSummary(s: Store) returns (id: nat)
    requires s.Valid()
    modifies s
    ensures s.Valid()
    ensures s.pricelists == old(s.pricelists) && s.partners == old(s.partners)
    ensures DefaultOrderCreatable(s.pricelists, s.partners) ==>
      id == |old(s.orders)| + 1 && s.orders == old(s.orders) + [DefaultCartOrder(s.pricelists, s.partners)]
    ensures !DefaultOrderCreatable(s.pricelists, s.partners) ==> id == 0 && s.orders == old(s.orders)
    ensures id != 0 ==> IsOrderValid(s.orders, s.pricelists, id)
  {
    var p := FirstActivePricelist(s.pricelists);
    if p == 0 {
      return 0;
    }
    if PricelistCurrency(s.pricelists, p) == 0 {
      return 0;
    }
    var c := FirstCustomer(s.partners);
    if c == 0 {
      return 0;
    }
    var created := s.CreateOrder(DefaultCartOrder(s.pricelists, s.partners));
    id := if created.Some? then created.value else 0;
  }

  /** `_create_emergency_order_for_cart_summary`: an order on the fixed
      price list 1 and partner 1; creation fails (0) when either is
      missing. */
  method CreateEmergencyOrderForCartSummary(s: Store) returns (id: nat)
    requires s.Valid()
    modifies s
    ensures s.Valid()
    ensures s.pricelists == old(s.pricelists) && s.partners == old(s.partners)
    ensures if 1 <= |s.pricelists| && 1 <= |s.partners| then
        id == |old(s.orders)| + 1 && s.orders == old(s.orders) + [EmergencyCartOrder]
      else
        id == 0 && s.orders == old(s.orders)
  {
    var created := s.CreateOrder(EmergencyCartOrder);
    id := if created.Some? then created.value else 0;
  }

  /** The orders after `sale_get_order`, and the order it hands out (0 for
      none), given what the inherited call did. An order the inherited call
      returns is kept when the repair makes it ready (the repair's writes
      stay even when it fails); an order that is missing or still broken is
      replaced by a new default order when one can be created. When the
      inherited call raises, the emergency order is created instead. */
  function SaleGetOrderOutcome(orders: seq<SaleOrder>, pricelists: seq<Pricelist>, partners: seq<PartnerRecord>,
                               parent: ParentOrder): (r: (seq<SaleOrder>, nat))
    requires parent.ParentReturned? ==> parent.id <= |orders|
    ensures |r.0| >= |orders| && r.1 <= |r.0|
    ensures parent.ParentReturned? ==> r.1 == 0 || IsOrderValid(r.0, pricelists, r.1)
    ensures parent.ParentReturned? ==>
      (r.1 != 0 <==> (parent.id != 0 && ConservativeFix(orders[parent.id - 1], pricelists, partners).1) ||
                     DefaultOrderCreatable(pricelists, partners))
    ensures parent.ParentReturned? && parent.id != 0 ==>
      (r.1 == parent.id <==> ConservativeFix(orders[parent.id - 1], pricelists, partners).1) &&
      r.0[..|orders|] == orders[parent.id - 1 := ConservativeFix(orders[parent.id - 1], pricelists, partners).0]
    ensures parent.ParentReturned? && r.1 != 0 && r.1 != parent.id ==>
      r.1 == |orders| + 1 && r.0 == r.0[..|orders|] + [DefaultCartOrder(pricelists, partners)]
    ensures parent.ParentReturned? && (r.1 == 0 || r.1 == parent.id) ==> |r.0| == |orders|
    ensures parent.ParentRaised? ==>
      (r.1 != 0 <==> 1 <= |pricelists| && 1 <= |partners|) &&
      r.0 == (if r.1 != 0 then orders + [EmergencyCartOrder] else orders)
  {
    if parent.ParentRaised? then
      if 1 <= |pricelists| && 1 <= |partners| then (orders + [EmergencyCartOrder], |orders| + 1) else (orders, 0)
    else
      var fixed := if parent.id == 0 then orders
        else orders[parent.id - 1 := ConservativeFix(orders[parent.id - 1], pricelists, partners).0];
      if parent.id != 0 && ConservativeFix(orders[parent.id - 1], pricelists, partners).1 then
        assert fixed[..|orders|] == fixed;
        (fixed, parent.id)
      else if DefaultOrderCreatable(pricelists, partners) then
        var after := fixed + [DefaultCartOrder(pricelists, partners)];
        assert after[..|orders|] == fixed;
        (after, |fixed| + 1)
      else
        assert fixed[..|orders|] == fixed;
        (fixed, 0)
  }

  /** `sale_get_order`: take the inherited result, create a default order
      when there is none, repair it when it is not ready, and hand it out
      only when it is ready now; otherwise a fresh default order (or none).
      When the inherited call raises, an emergency order is created
      instead. No price list or partner is created. */
  method SaleGetOrder(s: Store, parent: ParentOrder) returns (order: nat)
    requires s.Valid()
    requires parent.ParentReturned? ==> parent.id <= |s.orders|
    modifies s
    ensures s.Valid()
    ensures s.pricelists == old(s.pricelists) && s.partners == old(s.partners)
    ensures (s.orders, order) == SaleGetOrderOutcome(old(s.orders), s.pricelists, s.partners, parent)
  {
    if parent.ParentRaised? {
      order := CreateEmergencyOrderForCartSummary(s);
    } else if parent.id == 0 {
      order := CreateDefaultOrderForCartSummary(s);
    } else {
      order := KeepOrReplaceOrder(s, parent.id);
    }
  }

  /** `sale_get_order` once the inherited call returned order `id`: repair
      it when it is not ready, hand it out when it is ready now, and
      otherwise create a default order (or none). */
  method KeepOrReplaceOrder(s: Store, id: nat) returns (order: nat)
    requires s.Valid() && 1 <= id <= |s.orders|
    modifies s
    ensures s.Valid()
    ensures s.pricelists == old(s.pricelists) && s.partners == old(s.partners)
    ensures var fix := ConservativeFix(old(s.orders)[id - 1], s.pricelists, s.partners);
      var fixed := old(s.orders)[id - 1 := fix.0];
      (s.orders, order) ==
        if fix.1 then (fixed, id)
        else if DefaultOrderCreatable(s.pricelists, s.partners) then (fixed + [DefaultCartOrder(s.pricelists, s.partners)], |fixed| + 1)
        else (fixed, 0)
  {
    ghost var fix := ConservativeFix(old(s.orders)[id - 1], s.pricelists, s.partners);
    if !IsOrderValid(s.orders, s.pricelists, id) {
      var _ := FixOrderForCartSummary(s, id);
    } else {
      FixLeavesReadyOrder(s.orders[id - 1], s.pricelists, s.partners);
      assert old(s.orders)[id - 1 := fix.0] == old(s.orders);
    }
    assert s.orders == old(s.orders)[id - 1 := fix.0];
    if IsOrderValid(s.orders, s.pricelists, id) {
      return id;
    }
    order := CreateDefaultOrderForCartSummary(s);
  }

  /** The outcome of `_ensure_cart_summary_always_works`: success when the
      current order is ready, or else when a default order can be created,
      which it then is. */
  function EnsureWorksOutcome(orders: seq<SaleOrder>, pricelists: seq<Pricelist>, partners: seq<PartnerRecord>,
                              current: nat): (r: (seq<SaleOrder>, bool))
    ensures r.1 <==> IsOrderValid(orders, pricelists, current) || DefaultOrderCreatable(pricelists, partners)
    ensures r.1 ==> IsOrderValid(r.0, pricelists, current) || IsOrderValid(r.0, pricelists, |r.0|)
    ensures IsOrderValid(orders, pricelists, current) || !r.1 ==> r.0 == orders
    ensures !IsOrderValid(orders, pricelists, current) && r.1 ==>
      r.0 == orders + [DefaultCartOrder(pricelists, partners)]
  {
    if IsOrderValid(orders, pricelists, current) then (orders, true)
    else if DefaultOrderCreatable(pricelists, partners) then (orders + [DefaultCartOrder(pricelists, partners)], true)
    else (orders, false)
  }

  /** `_ensure_cart_summary_always_works`, given the order the website's
      `sale_get_order` returned (0 for none). */
  method EnsureCartSummaryAlwaysWorks(s: Store, current: nat) returns (ok: bool)
    requires s.Valid() && current <= |s.orders|
    modifies s
    ensures s.Valid()
    ensures s.pricelists == old(s.pricelists) && s.partners == old(s.partners)
    ensures (s.orders, ok) == EnsureWorksOutcome(old(s.orders), s.pricelists, s.partners, current)
  {
    if current != 0 && IsOrderValid(s.orders, s.pricelists, current) {
      return true;
    }
    var backup := CreateDefaultOrderForCartSummary(s);
    ok := backup != 0;
  }
}
