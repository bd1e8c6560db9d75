/** The website's template handler: `sale_get_order` creates a default
    order when the website has none and one is forced, runs the per-order
    safety pass on any order it hands out, and falls back to an emergency
    order on the hard-coded ids 1 when the inherited lookup raises. The pass
    is the one of the cart-summary error fix: it never creates a price list
    or a partner. */
module WebsiteSaleTemplateHandler {
  import opened OrderStore
  import opened ErrorHandler
  import opened CartSummaryErrorFix
  import TemplateErrorInterceptor

  /** The values of `_create_default_order`: the first active price list,
      PEN or USD, and the first customer, each else the hard-coded id 1. */
  function DefaultOrderVals(pricelists: seq<Pricelist>, partners: seq<PartnerRecord>, pen: nat, usd: nat): (o: SaleOrder)
    ensures o.pricelist != 0 && o.currency != 0 && o.partner != 0
    ensures FirstActivePricelist(pricelists) != 0 ==> o.pricelist == FirstActivePricelist(pricelists)
    ensures PenOrUsd(pen, usd) != 0 ==> o.currency == PenOrUsd(pen, usd)
    ensures FirstCustomer(partners) != 0 ==> o.partner == FirstCustomer(partners)
  {
    SaleOrder("Orden por Defecto", OrElse(FirstActivePricelist(pricelists), 1), OrElse(PenOrUsd(pen, usd), 1),
              OrElse(FirstCustomer(partners), 1), 0.0)
  }

  /** `_create_default_order`: the default order, or None (0) when one of
      its references does not exist, which happens exactly when there is no
      price list, no partner or no currency at all. */
  method CreateDefaultOrder(s: Store) returns (id: nat)
    requires s.Valid()
    modifies s
    ensures s.Valid()
    ensures s.pricelists == old(s.pricelists) && s.partners == old(s.partners)
    ensures id != 0 <==> |s.pricelists| >= 1 && |s.partners| >= 1 && s.currencies >= 1
    ensures id != 0 ==> id == |s.orders| && s.orders == old(s.orders) + [DefaultOrderVals(s.pricelists, s.partners, s.pen, s.usd)]
    ensures id == 0 ==> s.orders == old(s.orders)
  {
    var created := s.CreateOrder(DefaultOrderVals(s.pricelists, s.partners, s.pen, s.usd));
    id := if created.Some? then created.value else 0;
  }

  const EmergencyOrder := SaleOrder("Orden de Emergencia", 1, 1, 1, 0.0)

  /** `_create_emergency_order`: an order on the hard-coded ids 1, or None
      (0) when one of them does not exist. */
  method CreateEmergencyOrder(s: Store) returns (id: nat)
    requires s.Valid()
    modifies s
    ensures s.Valid()
    ensures s.pricelists == old(s.pricelists) && s.partners == old(s.partners)
    ensures id != 0 <==> |s.pricelists| >= 1 && |s.partners| >= 1 && s.currencies >= 1
    ensures id != 0 ==> id == |s.orders| && s.orders == old(s.orders) + [EmergencyOrder]
    ensures id == 0 ==> s.orders == old(s.orders)
  {
    var created := s.CreateOrder(EmergencyOrder);
    id := if created.Some? then created.value else 0;
  }

  /** `_ensure_order_template_safety(order)`: the per-order safety pass,
      filling only missing fields, in order: price list, price list currency
      (written onto the price list), order currency (the price list's
      first), partner. It creates no record. */
  method EnsureOrderTemplateSafety(s: Store, k: nat)
    requires s.Valid() && 1 <= k <= |s.orders|
    modifies s
    ensures s.Valid()
    ensures var step := SecureStep(old(s.orders)[k - 1], old(s.pricelists), s.partners, s.pen, s.usd);
      s.orders == old(s.orders)[k - 1 := step.0] && s.pricelists == step.1
    ensures s.partners == old(s.partners) && |s.pricelists| == |old(s.pricelists)|
    ensures KeepsSetFields(old(s.orders)[k - 1], s.orders[k - 1])
    ensures FirstActivePricelist(old(s.pricelists)) != 0 && PenOrUsd(s.pen, s.usd) != 0 && FirstCustomer(s.partners) != 0 ==>
      IsComplete(s.orders[k - 1], s.pricelists)
  {
    SecureOrder(s, k);
  }

  /** `sale_get_order`, given what the inherited lookup did: its order, or
      with `forceCreate` and no order a new default order; any order gets the
      safety pass; when the lookup raises, the emergency order. No price list
      or partner is ever created. */
  method SaleGetOrder(s: Store, parent: ParentOrder, forceCreate: bool) returns (order: nat)
    requires s.Valid()
    requires parent.ParentReturned? ==> parent.id <= |s.orders|
    modifies s
    ensures s.Valid()
    ensures s.partners == old(s.partners) && |s.pricelists| == |old(s.pricelists)|
    ensures order <= |s.orders|
    ensures parent.ParentRaised? ==>
      s.pricelists == old(s.pricelists) &&
      (order != 0 <==> |s.pricelists| >= 1 && |s.partners| >= 1 && s.currencies >= 1) &&
      (order != 0 ==> order == |s.orders| && s.orders == old(s.orders) + [EmergencyOrder]) &&
      (order == 0 ==> s.orders == old(s.orders))
    ensures parent.ParentReturned? && parent.id != 0 ==>
      var step := SecureStep(old(s.orders)[parent.id - 1], old(s.pricelists), s.partners, s.pen, s.usd);
      order == parent.id && s.orders == old(s.orders)[parent.id - 1 := step.0] && s.pricelists == step.1
    ensures parent == ParentReturned(0) && !forceCreate ==>
      order == 0 && s.orders == old(s.orders) && s.pricelists == old(s.pricelists)
    ensures parent == ParentReturned(0) && forceCreate ==>
      (order != 0 <==> |s.pricelists| >= 1 && |s.partners| >= 1 && s.currencies >= 1) &&
      (order == 0 ==> s.orders == old(s.orders) && s.pricelists == old(s.pricelists)) &&
      (order != 0 ==>
        var step := SecureStep(DefaultOrderVals(old(s.pricelists), s.partners, s.pen, s.usd), old(s.pricelists), s.partners, s.pen, s.usd);
        order == |s.orders| && s.orders == old(s.orders) + [step.0] && s.pricelists == step.1)
    ensures parent.ParentReturned? && order != 0 &&
            FirstActivePricelist(old(s.pricelists)) != 0 && PenOrUsd(s.pen, s.usd) != 0 && FirstCustomer(s.partners) != 0 ==>
      IsComplete(s.orders[order - 1], s.pricelists)
  {
    if parent.ParentRaised? {
      order := CreateEmergencyOrder(s);
      return;
    }
    order := SecureReturnedOrder(s, parent.id, forceCreate);
  }

  /** `sale_get_order` when the inherited lookup returned order `id` (0 for
      none): that order, else with `forceCreate` a new default order, after
      the safety pass. */
  method SecureReturnedOrder(s: Store, id: nat, forceCreate: bool) returns (order: nat)
    requires s.Valid() && id <= |s.orders|
    modifies s
    ensures s.Valid()
    ensures s.partners == old(s.partners) && |s.pricelists| == |old(s.pricelists)|
    ensures order <= |s.orders|
    ensures id != 0 ==>
      var step := SecureStep(old(s.orders)[id - 1], old(s.pricelists), s.partners, s.pen, s.usd);
      order == id && s.orders == old(s.orders)[id - 1 := step.0] && s.pricelists == step.1
    ensures id == 0 && !forceCreate ==>
      order == 0 && s.orders == old(s.orders) && s.pricelists == old(s.pricelists)
    ensures id == 0 && forceCreate ==>
      (order != 0 <==> |s.pricelists| >= 1 && |s.partners| >= 1 && s.currencies >= 1) &&
      (order == 0 ==> s.orders == old(s.orders) && s.pricelists == old(s.pricelists)) &&
      (order != 0 ==>
        var step := SecureStep(DefaultOrderVals(old(s.pricelists), s.partners, s.pen, s.usd), old(s.pricelists), s.partners, s.pen, s.usd);
        order == |s.orders| && s.orders == old(s.orders) + [step.0] && s.pricelists == step.1)
    ensures order != 0 && FirstActivePricelist(old(s.pricelists)) != 0 && PenOrUsd(s.pen, s.usd) != 0 && FirstCustomer(s.partners) != 0 ==>
      IsComplete(s.orders[order - 1], s.pricelists)
  {
    order := id;
    if order == 0 && forceCreate {
      order := CreateDefaultOrder(s);
    }
    if order != 0 {
      ghost var before := s.orders;
      EnsureOrderTemplateSafety(s, order);
      if id == 0 {
        assert s.orders == old(s.orders) + [s.orders[order - 1]] by {
          assert before == old(s.orders) + [DefaultOrderVals(old(s.pricelists), s.partners, s.pen, s.usd)];
        }
      }
    }
  }

  /** `_get_safe_cart_summary_data`: the forced order's data after one more
      safety pass; the dummy data exactly when the forced lookup gives no
      order, that is when it returned none and no default order can be
      created, or raised and the emergency order cannot be. The second pass
      changes nothing, so the store ends as `SafeOrderOutcome` says. */
  method GetSafeCartSummaryData(s: Store, parent: ParentOrder) returns (data: CartSummaryData)
    requires s.Valid()
    requires parent.ParentReturned? ==> parent.id <= |s.orders|
    modifies s
    ensures s.Valid()
    ensures s.partners == old(s.partners)
    ensures var r := SafeOrderOutcome(old(s.orders), old(s.pricelists), s.partners, s.currencies, s.pen, s.usd, parent);
      s.orders == r.0 && s.pricelists == r.1 && data.order == r.2
    ensures data.order != 0 <==> (parent.ParentReturned? && parent.id != 0) || (|s.pricelists| >= 1 && |s.partners| >= 1 && s.currencies >= 1)
    ensures data.order == 0 ==> data == DummyCartSummaryData(s.pricelists, s.partners, s.pen, s.usd)
    ensures data.order != 0 ==> data.order <= |s.orders| && data == SafeDataOf(data.order, s.orders[data.order - 1], s.pricelists, s.pen)
    ensures parent.ParentReturned? && parent.id != 0 ==> data.order == parent.id
    ensures data.order != 0 &&
            FirstActivePricelist(old(s.pricelists)) != 0 && PenOrUsd(s.pen, s.usd) != 0 && FirstCustomer(s.partners) != 0 ==>
      data.currency != 0 && data.pricelist != 0 && data.partner != 0
  {
    var order := SaleGetOrder(s, parent, true);
    if order == 0 {
      return DummyCartSummaryData(s.pricelists, s.partners, s.pen, s.usd);
    }
    if parent.ParentRaised? {
      ghost var before := s.orders;
      assert before == old(s.orders) + [EmergencyOrder];
      EnsureOrderTemplateSafety(s, order);
      assert s.orders == before[order - 1 := s.orders[order - 1]];
      assert s.orders == old(s.orders) + [s.orders[order - 1]];
    } else {
      SecureAgain(s, order, if parent.id != 0 then old(s.orders)[parent.id - 1]
                            else DefaultOrderVals(old(s.pricelists), s.partners, s.pen, s.usd), old(s.pricelists));
    }
    data := SafeDataOf(order, s.orders[order - 1], s.pricelists, s.pen);
  }

  /** The safety pass is idempotent: a second pass over an order the
      pass has already seen changes neither the order nor the price lists. */
  lemma SecureStepIsIdempotent(o: SaleOrder, pricelists: seq<Pricelist>, partners: seq<PartnerRecord>, pen: nat, usd: nat)
    requires o.pricelist <= |pricelists|
    ensures var step := SecureStep(o, pricelists, partners, pen, usd);
      |step.1| == |pricelists| && SecureStep(step.0, step.1, partners, pen, usd) == step
  {
    var step := SecureStep(o, pricelists, partners, pen, usd);
    GainsCurrencyKeepsFirstActive(pricelists, step.1, PenOrUsd(pen, usd));
  }

  /** The order the inherited lookup is asked for with `force_create`, and
      otherwise the default order, after the safety pass: the orders and
      price lists then, and the order (0 for none). The lookup's own order
      is used when it returned one; when it raised, its emergency order;
      when it returned none, its new default order; a new order can be
      created exactly when some price list, partner and currency exist. */
  function SafeOrderOutcome(orders: seq<SaleOrder>, pricelists: seq<Pricelist>, partners: seq<PartnerRecord>,
                            currencies: nat, pen: nat, usd: nat, parent: ParentOrder): (r: (seq<SaleOrder>, seq<Pricelist>, nat))
    requires parent.ParentReturned? ==> parent.id <= |orders|
    requires PricelistRefsValid(orders, |pricelists|)
    ensures r.2 <= |r.0| && |orders| <= |r.0| <= |orders| + 1
    ensures r.2 != 0 <==> (parent.ParentReturned? && parent.id != 0) || (|pricelists| >= 1 && |partners| >= 1 && currencies >= 1)
    ensures r.2 == 0 ==> r.0 == orders && r.1 == pricelists
    ensures forall j :: 0 <= j < |orders| && j != r.2 - 1 ==> r.0[j] == orders[j]
    ensures parent.ParentReturned? && parent.id != 0 ==>
      r.2 == parent.id && |r.0| == |orders| && KeepsSetFields(orders[parent.id - 1], r.0[parent.id - 1])
    ensures !(parent.ParentReturned? && parent.id != 0) && r.2 != 0 ==>
      r.2 == |r.0| == |orders| + 1 &&
      KeepsSetFields(if parent.ParentRaised? then EmergencyOrder else DefaultOrderVals(pricelists, partners, pen, usd), r.0[r.2 - 1])
    ensures GainsCurrency(pricelists, r.1, PenOrUsd(pen, usd))
    ensures r.2 != 0 && FirstActivePricelist(pricelists) != 0 && PenOrUsd(pen, usd) != 0 && FirstCustomer(partners) != 0 ==>
      IsComplete(r.0[r.2 - 1], r.1)
  {
    if parent.ParentReturned? && parent.id != 0 then
      var step := SecureStep(orders[parent.id - 1], pricelists, partners, pen, usd);
      (orders[parent.id - 1 := step.0], step.1, parent.id)
    else if |pricelists| >= 1 && |partners| >= 1 && currencies >= 1 then
      var o := if parent.ParentRaised? then EmergencyOrder else DefaultOrderVals(pricelists, partners, pen, usd);
      var step := SecureStep(o, pricelists, partners, pen, usd);
      (orders + [step.0], step.1, |orders| + 1)
    else (orders, pricelists, 0)
  }

  /** The order `_fix_cart_summary_error` writes back: its own name, or
      "Orden Corregida" when it has none. */
  function Corrected(o: SaleOrder): (c: SaleOrder)
    ensures c.name != "" && c == o.(name := c.name)
    ensures o.name != "" ==> c == o
  {
    o.(name := if o.name != "" then o.name else "Orden Corregida")
  }

  /** The safety pass on order `k` when the lookup already gave it one:
      the second pass changes nothing. */
  method SecureAgain(s: Store, k: nat, ghost o: SaleOrder, ghost pricelists: seq<Pricelist>)
    requires s.Valid() && 1 <= k <= |s.orders| && o.pricelist <= |pricelists|
    requires var step := SecureStep(o, pricelists, s.partners, s.pen, s.usd);
      s.orders[k - 1] == step.0 && s.pricelists == step.1
    modifies s
    ensures s.Valid()
    ensures s.orders == old(s.orders) && s.pricelists == old(s.pricelists) && s.partners == old(s.partners)
  {
    SecureStepIsIdempotent(o, pricelists, s.partners, s.pen, s.usd);
    EnsureOrderTemplateSafety(s, k);
    assert s.orders == old(s.orders)[k - 1 := old(s.orders)[k - 1]];
  }

  /** The forced order, else a new default order, after the safety pass:
      what `_fix_cart_summary_error` and `_get_website_sale_order_safe`
      share. */
  method SafeOrder(s: Store, parent: ParentOrder) returns (order: nat)
    requires s.Valid()
    requires parent.ParentReturned? ==> parent.id <= |s.orders|
    modifies s
    ensures s.Valid()
    ensures s.partners == old(s.partners)
    ensures (s.orders, s.pricelists, order) ==
      SafeOrderOutcome(old(s.orders), old(s.pricelists), s.partners, s.currencies, s.pen, s.usd, parent)
  {
    order := SaleGetOrder(s, parent, true);
    if order == 0 {
      order := CreateDefaultOrder(s);
      assert order == 0;
      return;
    }
    if parent.ParentRaised? {
      ghost var before := s.orders;
      assert before == old(s.orders) + [EmergencyOrder];
      EnsureOrderTemplateSafety(s, order);
      assert s.orders == before[order - 1 := s.orders[order - 1]];
      assert s.orders == old(s.orders) + [s.orders[order - 1]];
    } else {
      SecureAgain(s, order, if parent.id != 0 then old(s.orders)[parent.id - 1]
                            else DefaultOrderVals(old(s.pricelists), s.partners, s.pen, s.usd), old(s.pricelists));
    }
  }

  /** `_fix_cart_summary_error`: the forced order, else a new default
      order, gets the safety pass and keeps its name (or is named "Orden
      Corregida"); True exactly when there was such an order, that is when
      the lookup gave one or a new order could be created. */
  method FixCartSummaryError(s: Store, parent: ParentOrder) returns (ok: bool)
    requires s.Valid()
    requires parent.ParentReturned? ==> parent.id <= |s.orders|
    modifies s
    ensures s.Valid()
    ensures s.partners == old(s.partners)
    ensures var r := SafeOrderOutcome(old(s.orders), old(s.pricelists), s.partners, s.currencies, s.pen, s.usd, parent);
      ok == (r.2 != 0) && s.pricelists == r.1 &&
      s.orders == (if ok then r.0[r.2 - 1 := Corrected(r.0[r.2 - 1])] else r.0)
    ensures ok <==> (parent.ParentReturned? && parent.id != 0) || (|s.pricelists| >= 1 && |s.partners| >= 1 && s.currencies >= 1)
  {
    var order := SafeOrder(s, parent);
    if order == 0 {
      return false;
    }
    var o := s.orders[order - 1];
    s.WriteOrder(order, Corrected(o));
    return true;
  }

  /** `_handle_template_error(template_name, error)`: the cart-summary
      repair for the cart summary, False for any other template. */
  method HandleTemplateError(s: Store, template: string, parent: ParentOrder) returns (ok: bool)
    requires s.Valid()
    requires parent.ParentReturned? ==> parent.id <= |s.orders|
    modifies s
    ensures s.Valid()
    ensures template != TemplateErrorInterceptor.CartSummaryTemplate ==>
      !ok && s.orders == old(s.orders) && s.pricelists == old(s.pricelists) && s.partners == old(s.partners)
    ensures template == TemplateErrorInterceptor.CartSummaryTemplate ==>
      var r := SafeOrderOutcome(old(s.orders), old(s.pricelists), s.partners, s.currencies, s.pen, s.usd, parent);
      s.partners == old(s.partners) && ok == (r.2 != 0) && s.pricelists == r.1 &&
      s.orders == (if ok then r.0[r.2 - 1 := Corrected(r.0[r.2 - 1])] else r.0)
  {
    if template == TemplateErrorInterceptor.CartSummaryTemplate {
      ok := FixCartSummaryError(s, parent);
    } else {
      ok := false;
    }
  }

  /** `_get_website_sale_order_safe`: the forced order, else a new default
      order, after the safety pass; None (0) when there is neither. */
  method GetWebsiteSaleOrderSafe(s: Store, parent: ParentOrder) returns (order: nat)
    requires s.Valid()
    requires parent.ParentReturned? ==> parent.id <= |s.orders|
    modifies s
    ensures s.Valid()
    ensures s.partners == old(s.partners)
    ensures (s.orders, s.pricelists, order) ==
      SafeOrderOutcome(old(s.orders), old(s.pricelists), s.partners, s.currencies, s.pen, s.usd, parent)
  {
    order := SafeOrder(s, parent);
  }
}
