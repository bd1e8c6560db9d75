/** The website's template error interceptor: the data the cart summary
    template needs is taken from a "safe" order, which is the website's
    current order, or a new order on existing records, repaired when its
    price list is missing or has no currency; when the order still cannot
    be shown, dummy data with a zero total is used instead. */
module TemplateErrorInterceptor {
  import opened Common
  import opened OrderStore
  import opened OrderGuarantee

  const CartSummaryTemplate := "website_sale.cart_summary"

  /** The repair the interceptors apply: only an order whose price list is
      missing or has no currency goes through the conservative repair; an
      order that merely lacks a partner is left alone. */
  function TemplateFix(o: SaleOrder, pricelists: seq<Pricelist>, partners: seq<PartnerRecord>): (r: SaleOrder)
    ensures o.pricelist != 0 && PricelistCurrency(pricelists, o.pricelist) != 0 ==> r == o
    ensures o.pricelist == 0 || PricelistCurrency(pricelists, o.pricelist) == 0 ==>
      r == ConservativeFix(o, pricelists, partners).0
  {
    if o.pricelist == 0 || PricelistCurrency(pricelists, o.pricelist) == 0 then ConservativeFix(o, pricelists, partners).0 else o
  }

  /** The template repair makes an order ready exactly when the full repair
      does, except for an order whose price list is fine but which has no
      partner: that one is never repaired. */
  lemma {:induction false} TemplateFixReadiness(o: SaleOrder, pricelists: seq<Pricelist>, partners: seq<PartnerRecord>)
    ensures o.pricelist != 0 && PricelistCurrency(pricelists, o.pricelist) != 0 && o.partner == 0 ==>
      !IsCartReady(TemplateFix(o, pricelists, partners), pricelists)
    ensures !(o.pricelist != 0 && PricelistCurrency(pricelists, o.pricelist) != 0 && o.partner == 0) ==>
      (IsCartReady(TemplateFix(o, pricelists, partners), pricelists) <==> ConservativeFix(o, pricelists, partners).1)
  {
    if o.pricelist != 0 && PricelistCurrency(pricelists, o.pricelist) != 0 && o.partner != 0 {
      FixLeavesReadyOrder(o, pricelists, partners);
    }
  }

  /** What the cart summary shows for a ready order. */
  function SummaryOf(id: nat, o: SaleOrder, pricelists: seq<Pricelist>): CartSummaryData {
    CartSummaryData(id, o.amountTotal, PricelistCurrency(pricelists, o.pricelist), o.pricelist, o.partner)
  }

  /** The safe order: the first active price list and the first customer. */
  function SafeTemplateOrder(pricelists: seq<Pricelist>, partners: seq<PartnerRecord>): (o: SaleOrder)
    ensures FirstActivePricelist(pricelists) != 0 && FirstCustomer(partners) != 0 ==>
      (IsCartReady(o, pricelists) <==> PricelistCurrency(pricelists, FirstActivePricelist(pricelists)) != 0)
  {
    SaleOrder("Orden Segura para Template", FirstActivePricelist(pricelists), 0, FirstCustomer(partners), 0.0)
  }

  /** `_create_safe_order_for_template` (both interceptors): a new order on
      the first active price list and the first customer; nothing (0) when
      either is missing. Unlike the guarantee's default order, the price
      list's currency is not checked. */
  method CreateSafeOrderForTemplate(s: Store) returns (id: nat)
    requires s.Valid()
    modifies s
    ensures s.Valid()
    ensures s.pricelists == old(s.pricelists) && s.partners == old(s.partners)
    ensures var p := FirstActivePricelist(s.pricelists);
      var c := FirstCustomer(s.partners);
      if p != 0 && c != 0 then
        id == |old(s.orders)| + 1 &&
        s.orders == old(s.orders) + [SafeTemplateOrder(s.pricelists, s.partners)]
      else
        id == 0 && s.orders == old(s.orders)
    ensures id != 0 ==>
      (IsOrderValid(s.orders, s.pricelists, id) <==> PricelistCurrency(s.pricelists, FirstActivePricelist(s.pricelists)) != 0)
  {
    var p := FirstActivePricelist(s.pricelists);
    if p == 0 {
      return 0;
    }
    var c := FirstCustomer(s.partners);
    if c == 0 {
      return 0;
    }
    var created := s.CreateOrder(SafeTemplateOrder(s.pricelists, s.partners));
    id := if created.Some? then created.value else 0;
  }

  /** `_get_safe_website_sale_order_for_template`, given what the website's
      `sale_get_order` did: its order, else a new safe order; an order whose
      price list is missing or has no currency is repaired, but handed out
      whether or not the repair succeeds. */
  method GetSafeOrderForTemplate(s: Store, website: ParentOrder) returns (order: nat)
    requires s.Valid()
    requires website.ParentReturned? ==> website.id <= |s.orders|
    modifies s
    ensures s.Valid()
    ensures s.pricelists == old(s.pricelists) && s.partners == old(s.partners)
    ensures order <= |s.orders|
    ensures website.ParentReturned? && website.id != 0 ==>
      order == website.id && s.orders == old(s.orders)[website.id - 1 := TemplateFix(old(s.orders)[website.id - 1], s.pricelists, s.partners)]
    ensures !(website.ParentReturned? && website.id != 0) ==>
      (order == 0 <==> FirstActivePricelist(s.pricelists) == 0 || FirstCustomer(s.partners) == 0)
    ensures !(website.ParentReturned? && website.id != 0) && order != 0 ==>
      order == |old(s.orders)| + 1 &&
      s.orders == old(s.orders) + [SafeTemplateOrder(s.pricelists, s.partners)]
  {
    if website.ParentRaised? {
      order := CreateSafeOrderForTemplate(s);
      return;
    }
    order := website.id;
    if order == 0 {
      order := CreateSafeOrderForTemplate(s);
    }
    if order != 0 {
      var o := s.orders[order - 1];
      if o.pricelist == 0 || PricelistCurrency(s.pricelists, o.pricelist) == 0 {
        var _ := FixOrderForCartSummary(s, order);
      }
    }
  }

  /** `_get_cart_summary_safe_data`: the safe order's data when the order is
      ready, dummy data otherwise. */
  method CartSummarySafeData(s: Store, website: ParentOrder) returns (data: CartSummaryData)
    requires s.Valid()
    requires website.ParentReturned? ==> website.id <= |s.orders|
    modifies s
    ensures s.Valid()
    ensures s.pricelists == old(s.pricelists) && s.partners == old(s.partners)
    ensures data == EmptyCartSummary ||
      (IsOrderValid(s.orders, s.pricelists, data.order) && data == SummaryOf(data.order, s.orders[data.order - 1], s.pricelists))
    ensures data.order != 0 ==> data.currency != 0 && data.pricelist != 0 && data.partner != 0
    ensures website.ParentReturned? && website.id != 0 ==>
      (data != EmptyCartSummary <==> IsCartReady(TemplateFix(old(s.orders)[website.id - 1], s.pricelists, s.partners), s.pricelists)) &&
      (data != EmptyCartSummary ==> data.order == website.id)
    ensures !(website.ParentReturned? && website.id != 0) ==>
      (data != EmptyCartSummary <==> DefaultOrderCreatable(s.pricelists, s.partners)) &&
      (data != EmptyCartSummary ==> data.order == |s.orders| == |old(s.orders)| + 1)
  {
    var order := GetSafeOrderForTemplate(s, website);
    if order == 0 {
      return EmptyCartSummary;
    }
    if !IsOrderValid(s.orders, s.pricelists, order) {
      return EmptyCartSummary;
    }
    data := SummaryOf(order, s.orders[order - 1], s.pricelists);
  }

  /** `_get_template_safe_data`, and `_intercept_template_error` (whose
      cart-summary data is a non-empty dictionary and so always handed
      back): for the cart summary exactly what `_get_cart_summary_safe_data`
      gives, nothing for any other template. */
  method TemplateSafeData(s: Store, template: string, website: ParentOrder) returns (data: Option<CartSummaryData>)
    requires s.Valid()
    requires website.ParentReturned? ==> website.id <= |s.orders|
    modifies s
    ensures s.Valid()
    ensures s.pricelists == old(s.pricelists) && s.partners == old(s.partners)
    ensures data.Some? <==> template == CartSummaryTemplate
    ensures template != CartSummaryTemplate ==> s.orders == old(s.orders)
    ensures template == CartSummaryTemplate ==>
      var d := data.value;
      (d == EmptyCartSummary ||
        (IsOrderValid(s.orders, s.pricelists, d.order) && d == SummaryOf(d.order, s.orders[d.order - 1], s.pricelists))) &&
      (d.order != 0 ==> d.currency != 0 && d.pricelist != 0 && d.partner != 0)
    ensures template == CartSummaryTemplate && website.ParentReturned? && website.id != 0 ==>
      (data.value != EmptyCartSummary <==> IsCartReady(TemplateFix(old(s.orders)[website.id - 1], s.pricelists, s.partners), s.pricelists)) &&
      (data.value != EmptyCartSummary ==> data.value.order == website.id)
    ensures template == CartSummaryTemplate && !(website.ParentReturned? && website.id != 0) ==>
      (data.value != EmptyCartSummary <==> DefaultOrderCreatable(s.pricelists, s.partners)) &&
      (data.value != EmptyCartSummary ==> data.value.order == |s.orders| == |old(s.orders)| + 1)
  {
    if template == CartSummaryTemplate {
      var d := CartSummarySafeData(s, website);
      data := Some(d);
    } else {
      data := None;
    }
  }
}
