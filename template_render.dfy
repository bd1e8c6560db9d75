/** The QWeb render interceptor: rendering the cart summary first makes its
    values safe (an order that exists, a price list with a currency, a
    total), and when rendering still fails the fixed fallback markup with a
    zero total is returned; every other template renders as before. */
module TemplateRenderInterceptor {
  import opened OrderStore
  import opened OrderGuarantee
  import opened TemplateErrorInterceptor

  /** A value handed to a template. `OrderRef(0)` is the empty order. */
  datatype QValue = OrderRef(id: nat) | CurrencyRef(currency: nat) | PricelistRef(pricelist: nat) |
                    Amount(amount: real) | NoneValue | OtherValue(text: string)

  /** Python truthiness of a template value. */
  predicate QTruthy(v: QValue) {
    match v
    case OrderRef(id) => id != 0
    case CurrencyRef(id) => id != 0
    case PricelistRef(id) => id != 0
    case Amount(a) => a != 0.0
    case NoneValue => false
    case OtherValue(t) => t != ""
  }

  type Values = map<string, QValue>

  const OrderKey := "website_sale_order"

  /** The values returned when preparing the safe values raises. */
  const MinimalValues: Values :=
    map[OrderKey := NoneValue, "amount_total" := Amount(0.0), "currency" := NoneValue, "pricelist" := NoneValue]

  /** A value that is set under the order key, truthy, and not an order: reading
      its price list raises. */
  predicate HoldsForeignValue(values: Values) {
    OrderKey in values && QTruthy(values[OrderKey]) && !values[OrderKey].OrderRef?
  }

  /** The order ids the values refer to exist. */
  predicate RefersToStore(values: Values, orders: nat) {
    OrderKey in values && values[OrderKey].OrderRef? ==> values[OrderKey].id <= orders
  }

  /** The total, currency and price list the cart summary is given for an
      order: the order's own when its price list has a currency, zero and
      None otherwise (and for no order). */
  function OrderFields(order: QValue, orders: seq<SaleOrder>, pricelists: seq<Pricelist>): (f: (QValue, QValue, QValue))
    ensures f.0.Amount? && (f.1 == NoneValue <==> f.2 == NoneValue)
    ensures f.1 != NoneValue ==>
      (order.OrderRef? && 1 <= order.id <= |orders| &&
       var o := orders[order.id - 1];
       o.pricelist != 0 && PricelistCurrency(pricelists, o.pricelist) != 0 &&
       f == (Amount(o.amountTotal), CurrencyRef(PricelistCurrency(pricelists, o.pricelist)), PricelistRef(o.pricelist)))
    ensures (order.OrderRef? && 1 <= order.id <= |orders| &&
             orders[order.id - 1].pricelist != 0 && PricelistCurrency(pricelists, orders[order.id - 1].pricelist) != 0)
            ==> f.1 != NoneValue
    ensures f.1 == NoneValue ==> f.0 == Amount(0.0)
  {
    if order.OrderRef? && 1 <= order.id <= |orders| then
      var o := orders[order.id - 1];
      if o.pricelist != 0 && PricelistCurrency(pricelists, o.pricelist) != 0 then
        (Amount(o.amountTotal), CurrencyRef(PricelistCurrency(pricelists, o.pricelist)), PricelistRef(o.pricelist))
      else (Amount(0.0), NoneValue, NoneValue)
    else (Amount(0.0), NoneValue, NoneValue)
  }

  /** The values with `order` under the order key and that order's fields
      set; every other entry is kept. */
  function WithOrder(values: Values, order: QValue, orders: seq<SaleOrder>, pricelists: seq<Pricelist>): (r: Values)
    ensures r.Keys == values.Keys + {OrderKey, "amount_total", "currency", "pricelist"}
    ensures forall k :: k in values && k !in {OrderKey, "amount_total", "currency", "pricelist"} ==> r[k] == values[k]
    ensures r[OrderKey] == order
    ensures (r["amount_total"], r["currency"], r["pricelist"]) == OrderFields(order, orders, pricelists)
  {
    var f := OrderFields(order, orders, pricelists);
    values[OrderKey := order]["amount_total" := f.0]["currency" := f.1]["pricelist" := f.2]
  }

  /** The orders after `_prepare_safe_cart_summary_values`, and the values
      it returns: a missing or empty order is replaced by a new safe order
      (or None when the records for one are missing), an order whose price
      list is missing or has no currency goes through the template repair,
      and the total, currency and price list are then taken from the order.
      A value under the order key that is not an order makes the
      preparation raise: the minimal values, and nothing written. */
  function SafeValuesOutcome(orders: seq<SaleOrder>, pricelists: seq<Pricelist>, partners: seq<PartnerRecord>,
                             values: Values): (r: (seq<SaleOrder>, Values))
    requires RefersToStore(values, |orders|)
    ensures HoldsForeignValue(values) ==> r == (orders, MinimalValues)
    ensures !HoldsForeignValue(values) ==>
      OrderKey in r.1 && r.1 == WithOrder(values, r.1[OrderKey], r.0, pricelists) &&
      (r.1[OrderKey] == NoneValue || (r.1[OrderKey].OrderRef? && 1 <= r.1[OrderKey].id <= |r.0|))
    ensures OrderKey in values && values[OrderKey].OrderRef? && values[OrderKey].id != 0 ==>
      var k := values[OrderKey].id;
      r.1[OrderKey] == OrderRef(k) && r.0 == orders[k - 1 := TemplateFix(orders[k - 1], pricelists, partners)]
    ensures OrderKey !in values || !QTruthy(values[OrderKey]) ==>
      (r.1[OrderKey] == NoneValue <==> FirstActivePricelist(pricelists) == 0 || FirstCustomer(partners) == 0) &&
      (r.1[OrderKey] == NoneValue ==> r.0 == orders) &&
      (r.1[OrderKey] != NoneValue ==>
         r.1[OrderKey] == OrderRef(|orders| + 1) && r.0 == orders + [SafeTemplateOrder(pricelists, partners)])
    ensures !HoldsForeignValue(values) && r.1[OrderKey].OrderRef? && IsCartReady(r.0[r.1[OrderKey].id - 1], pricelists) ==>
      var o := r.0[r.1[OrderKey].id - 1];
      r.1["currency"] == CurrencyRef(PricelistCurrency(pricelists, o.pricelist)) && r.1["amount_total"] == Amount(o.amountTotal)
  {
    if HoldsForeignValue(values) then (orders, MinimalValues)
    else if OrderKey !in values || !QTruthy(values[OrderKey]) then
      if FirstActivePricelist(pricelists) != 0 && FirstCustomer(partners) != 0 then
        var o := SafeTemplateOrder(pricelists, partners);
        assert TemplateFix(o, pricelists, partners) == o;
        var after := orders + [o];
        (after, WithOrder(values, OrderRef(|after|), after, pricelists))
      else (orders, WithOrder(values, NoneValue, orders, pricelists))
    else
      var k := values[OrderKey].id;
      var fixed := orders[k - 1 := TemplateFix(orders[k - 1], pricelists, partners)];
      (fixed, WithOrder(values, OrderRef(k), fixed, pricelists))
  }

  /** `_prepare_safe_cart_summary_values` on a copy of the caller's values:
      a missing or empty order is replaced by a new safe order (or None),
      an order whose price list is missing or has no currency is repaired,
      and the total, currency and price list are set from the order. A
      value under the order key that is not an order makes the preparation
      raise, and the minimal values are used. */
  method PrepareSafeCartSummaryValues(s: Store, values: Values) returns (safe: Values)
    requires s.Valid() && RefersToStore(values, |s.orders|)
    modifies s
    ensures s.Valid()
    ensures s.pricelists == old(s.pricelists) && s.partners == old(s.partners)
    ensures (s.orders, safe) == SafeValuesOutcome(old(s.orders), s.pricelists, s.partners, values)
  {
    if HoldsForeignValue(values) {
      return MinimalValues;
    }
    if OrderKey !in values || !QTruthy(values[OrderKey]) {
      var created := CreateSafeOrderForTemplate(s);
      if created == 0 {
        return WithOrder(values, NoneValue, s.orders, s.pricelists);
      }
      var o := s.orders[created - 1];
      assert o == SafeTemplateOrder(s.pricelists, s.partners);
      if PricelistCurrency(s.pricelists, o.pricelist) == 0 {
        var _ := FixOrderForCartSummary(s, created);
        assert s.orders[created - 1] == o;
      }
      safe := WithOrder(values, OrderRef(created), s.orders, s.pricelists);
      assert s.orders == old(s.orders) + [SafeTemplateOrder(s.pricelists, s.partners)];
      assert (s.orders, safe) == SafeValuesOutcome(old(s.orders), s.pricelists, s.partners, values);
    } else {
      var k := values[OrderKey].id;
      var o := s.orders[k - 1];
      if o.pricelist == 0 || PricelistCurrency(s.pricelists, o.pricelist) == 0 {
        var _ := FixOrderForCartSummary(s, k);
      }
      safe := WithOrder(values, OrderRef(k), s.orders, s.pricelists);
      assert s.orders == old(s.orders)[k - 1 := TemplateFix(o, s.pricelists, s.partners)];
      assert (s.orders, safe) == SafeValuesOutcome(old(s.orders), s.pricelists, s.partners, values);
    }
  }

  /** The outcome of rendering a template: markup, the fixed cart-summary
      fallback (a total of 0.00), or an exception. */
  datatype RenderResult = Rendered(html: string) | SafeCartSummaryHtml | RenderRaised

  /** `_render`: the cart summary is rendered by the inherited renderer from
      safe values, and falls back to the fixed markup when that raises, so
      it never raises; any other template is handed to the inherited
      renderer unchanged, values included, and its exception propagates. */
  method Render(s: Store, template: string, values: Values, parent: (string, Values) -> RenderResult) returns (r: RenderResult)
    requires s.Valid() && RefersToStore(values, |s.orders|)
    modifies s
    ensures s.Valid()
    ensures s.pricelists == old(s.pricelists) && s.partners == old(s.partners)
    ensures template != CartSummaryTemplate ==> r == parent(template, values) && s.orders == old(s.orders)
    ensures template == CartSummaryTemplate ==>
      var (orders, safe) := SafeValuesOutcome(old(s.orders), s.pricelists, s.partners, values);
      s.orders == orders &&
      r == (if parent(template, safe).RenderRaised? then SafeCartSummaryHtml else parent(template, safe))
    ensures template == CartSummaryTemplate ==> !r.RenderRaised?
  {
    if template == CartSummaryTemplate {
      var safe := PrepareSafeCartSummaryValues(s, values);
      var result := parent(template, safe);
      r := if result.RenderRaised? then SafeCartSummaryHtml else result;
    } else {
      r := parent(template, values);
    }
  }

  /** `_ensure_cart_summary_never_fails`: it only logs, and reports success. */
  function EnsureCartSummaryNeverFails(): (ok: bool)
    ensures ok
  {
    true
  }
}
