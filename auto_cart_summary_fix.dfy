/** The automatic cart-summary fix on `sale.order`: each order whose price
    list is missing or has no currency is repaired on its own, creating a
    price list and a customer named after the order when none exist; a
    backup order on the hard-coded ids 1 is the last resort. */
module AutoCartSummaryFix {
  import opened Common
  import opened OrderStore
  import opened ErrorHandler
  import opened CartSummaryErrorFix

  /** An order the repair selects: no price list, or a price list without a
      currency. */
  predicate Problematic(o: SaleOrder, pricelists: seq<Pricelist>) {
    o.pricelist == 0 || PricelistCurrency(pricelists, o.pricelist) == 0
  }

  /** The price list created for an order when none is active. */
  function OrderPricelist(o: SaleOrder, pen: nat): Pricelist {
    Pricelist("Lista de Precios para " + o.name, true, PenOrOne(pen))
  }

  /** The customer created for order `k` when there is none. */
  function OrderCustomer(k: nat, o: SaleOrder): PartnerRecord {
    PartnerRecord("Cliente para " + o.name, true, "cliente." + NatToStr(k) + "@default.com")
  }

  /** The records grow: price lists are only appended or gain a currency,
      and partners are only appended. */
  predicate Grows(pricelists: seq<Pricelist>, pricelists2: seq<Pricelist>, partners: seq<PartnerRecord>, partners2: seq<PartnerRecord>) {
    |pricelists| <= |pricelists2| && |partners| <= |partners2| && partners2[..|partners|] == partners &&
    forall i :: 0 <= i < |pricelists| ==> pricelists2[i] == pricelists[i] || pricelists[i].currency == 0
  }

  lemma GrowsTransitive(a: seq<Pricelist>, b: seq<Pricelist>, c: seq<Pricelist>,
                        pa: seq<PartnerRecord>, pb: seq<PartnerRecord>, pc: seq<PartnerRecord>)
    requires Grows(a, b, pa, pb) && Grows(b, c, pb, pc)
    ensures Grows(a, c, pa, pc)
  {
    assert pc[..|pa|] == pc[..|pb|][..|pa|];
  }

  /** A complete order stays complete while the records grow. */
  lemma GrowsKeepsComplete(o: SaleOrder, a: seq<Pricelist>, b: seq<Pricelist>, pa: seq<PartnerRecord>, pb: seq<PartnerRecord>)
    requires Grows(a, b, pa, pb) && IsComplete(o, a)
    ensures IsComplete(o, b)
  {
    assert a[o.pricelist - 1].currency != 0;
  }

  /** An order that is not problematic stays so while the records grow. */
  lemma GrowsKeepsUnproblematic(o: SaleOrder, a: seq<Pricelist>, b: seq<Pricelist>, pa: seq<PartnerRecord>, pb: seq<PartnerRecord>)
    requires Grows(a, b, pa, pb) && !Problematic(o, a)
    ensures !Problematic(o, b)
  {
    assert a[o.pricelist - 1].currency != 0;
  }

  /** The outcome of `_fix_single_order_for_cart_summary` on order `k`. */
  datatype SingleFix = SingleFix(order: SaleOrder, pricelists: seq<Pricelist>, partners: seq<PartnerRecord>, ok: bool)

  /** The price list step of the single-order repair: the price lists
      after it, the order's price list, and whether it succeeded. A missing
      price list becomes the first active one, else a new price list for
      the order in PEN (or currency 1), whose creation fails when that
      currency does not exist. */
  function PricelistStep(o: SaleOrder, pricelists: seq<Pricelist>, currencies: nat, pen: nat): (r: (seq<Pricelist>, nat, bool))
    requires o.pricelist <= |pricelists| && IsRef(pen, currencies)
    ensures r.2 <==> o.pricelist != 0 || FirstActivePricelist(pricelists) != 0 || currencies != 0
    ensures r.2 ==> 1 <= r.1 <= |r.0| && (o.pricelist != 0 ==> r.1 == o.pricelist)
    ensures !r.2 ==> r.0 == pricelists
    ensures |r.0| == |pricelists| + (if r.2 && o.pricelist == 0 && FirstActivePricelist(pricelists) == 0 then 1 else 0)
    ensures r.0[..|pricelists|] == pricelists
  {
    if o.pricelist != 0 then (pricelists, o.pricelist, true)
    else if FirstActivePricelist(pricelists) != 0 then (pricelists, FirstActivePricelist(pricelists), true)
    else if IsRef(PenOrOne(pen), currencies) then (pricelists + [OrderPricelist(o, pen)], |pricelists| + 1, true)
    else (pricelists, 0, false)
  }

  /** The remaining steps of the single-order repair, on an order with a
      price list: a price list without a currency gets the default
      currency; a missing order currency comes from the price list, else PEN
      or USD; a missing partner becomes the first customer, else a new
      customer for the order. */
  function LaterSteps(k: nat, o: SaleOrder, pricelists: seq<Pricelist>, partners: seq<PartnerRecord>,
                      currencies: nat, pen: nat, usd: nat): (r: SingleFix)
    requires 1 <= o.pricelist <= |pricelists| && IsRef(pen, currencies) && IsRef(usd, currencies)
    ensures r.ok && KeepsSetFields(o, r.order) && r.order.pricelist == o.pricelist
    ensures currencies != 0 ==> IsComplete(r.order, r.pricelists)
    ensures |r.pricelists| == |pricelists| && Grows(pricelists, r.pricelists, partners, r.partners)
    ensures |r.partners| == |partners| + (if o.partner == 0 && FirstCustomer(partners) == 0 then 1 else 0)
  {
    var p := o.pricelist;
    var c := DefaultCurrency(pen, usd, currencies);
    DefaultCurrencyExists(pen, usd, currencies);
    var pl := if pricelists[p - 1].currency == 0 && c != 0 then pricelists[p - 1 := pricelists[p - 1].(currency := c)] else pricelists;
    var currency := if o.currency != 0 then o.currency else if pl[p - 1].currency != 0 then pl[p - 1].currency else PenOrUsd(pen, usd);
    var customer :=
      if o.partner != 0 then (partners, o.partner)
      else if FirstCustomer(partners) != 0 then (partners, FirstCustomer(partners))
      else (partners + [OrderCustomer(k, o)], |partners| + 1);
    assert customer.0[..|partners|] == partners;
    SingleFix(o.(currency := currency, partner := customer.1), pl, customer.0, true)
  }

  /** `_fix_single_order_for_cart_summary(order)` on order `k`: the price
      list step, then the later steps. It fails, changing nothing, only when
      the price list must be created and its currency does not exist; when
      a currency exists, the order ends up complete. */
  function FixSingle(k: nat, o: SaleOrder, pricelists: seq<Pricelist>, partners: seq<PartnerRecord>,
                     currencies: nat, pen: nat, usd: nat): (r: SingleFix)
    requires o.pricelist <= |pricelists| && IsRef(pen, currencies) && IsRef(usd, currencies)
    ensures r.ok <==> o.pricelist != 0 || FirstActivePricelist(pricelists) != 0 || currencies != 0
    ensures !r.ok ==> r == SingleFix(o, pricelists, partners, false)
    ensures r.ok ==> KeepsSetFields(o, r.order) && r.order.pricelist != 0
    ensures r.ok && currencies != 0 ==> IsComplete(r.order, r.pricelists)
    ensures Grows(pricelists, r.pricelists, partners, r.partners)
    ensures |r.pricelists| == |pricelists| + (if r.ok && o.pricelist == 0 && FirstActivePricelist(pricelists) == 0 then 1 else 0)
    ensures |r.partners| == |partners| + (if r.ok && o.partner == 0 && FirstCustomer(partners) == 0 then 1 else 0)
  {
    var first := PricelistStep(o, pricelists, currencies, pen);
    if !first.2 then
      assert partners[..|partners|] == partners;
      SingleFix(o, pricelists, partners, false)
    else
      var r := LaterSteps(k, o.(pricelist := first.1), first.0, partners, currencies, pen, usd);
      assert Grows(pricelists, first.0, partners, partners) by {
        assert partners[..|partners|] == partners;
        assert forall i :: 0 <= i < |pricelists| ==> first.0[i] == first.0[..|pricelists|][i];
      }
      GrowsTransitive(pricelists, first.0, r.pricelists, partners, partners, r.partners);
      r
  }

  /** The price list step on order `k`. */
  method FixPricelistStep(s: Store, k: nat) returns (ok: bool)
    requires s.Valid() && 1 <= k <= |s.orders|
    modifies s
    ensures s.Valid()
    ensures var r := PricelistStep(old(s.orders)[k - 1], old(s.pricelists), s.currencies, s.pen);
      s.pricelists == r.0 && ok == r.2 &&
      s.orders == (if ok then old(s.orders)[k - 1 := old(s.orders)[k - 1].(pricelist := r.1)] else old(s.orders))
    ensures s.partners == old(s.partners)
  {
    var o := s.orders[k - 1];
    if o.pricelist == 0 {
      var p := FirstActivePricelist(s.pricelists);
      if p == 0 {
        var created := s.CreatePricelist(OrderPricelist(o, s.pen));
        if created.None? {
          return false;
        }
        p := created.value;
      }
      s.WriteOrder(k, o.(pricelist := p));
    } else {
      assert old(s.orders)[k - 1 := o] == old(s.orders);
    }
    return true;
  }

  /** The later steps on order `k`. */
  method FixLaterSteps(s: Store, k: nat)
    requires s.Valid() && 1 <= k <= |s.orders| && s.orders[k - 1].pricelist != 0
    modifies s
    ensures s.Valid()
    ensures var r := LaterSteps(k, old(s.orders)[k - 1], old(s.pricelists), old(s.partners), s.currencies, s.pen, s.usd);
      s.orders == old(s.orders)[k - 1 := r.order] && s.pricelists == r.pricelists && s.partners == r.partners
  {
    var o := s.orders[k - 1];
    if PricelistCurrency(s.pricelists, o.pricelist) == 0 {
      var c := DefaultCurrency(s.pen, s.usd, s.currencies);
      DefaultCurrencyExists(s.pen, s.usd, s.currencies);
      if c != 0 {
        s.WritePricelistCurrency(o.pricelist, c);
      }
    }
    if o.currency == 0 {
      var c := if PricelistCurrency(s.pricelists, o.pricelist) != 0 then PricelistCurrency(s.pricelists, o.pricelist) else PenOrUsd(s.pen, s.usd);
      if c != 0 {
        o := o.(currency := c);
        s.WriteOrder(k, o);
      }
    }
    if o.partner == 0 {
      var c := FirstCustomer(s.partners);
      if c == 0 {
        c := s.CreatePartner(OrderCustomer(k, o));
      }
      o := o.(partner := c);
      s.WriteOrder(k, o);
    }
  }

  /** `_fix_single_order_for_cart_summary` on order `k`. */
  method FixSingleOrderForCartSummary(s: Store, k: nat) returns (ok: bool)
    requires s.Valid() && 1 <= k <= |s.orders|
    modifies s
    ensures s.Valid()
    ensures var r := FixSingle(k, old(s.orders)[k - 1], old(s.pricelists), old(s.partners), s.currencies, s.pen, s.usd);
      s.orders == old(s.orders)[k - 1 := r.order] && s.pricelists == r.pricelists && s.partners == r.partners && ok == r.ok
  {
    ok := FixPricelistStep(s, k);
    if !ok {
      assert old(s.orders)[k - 1 := old(s.orders)[k - 1]] == old(s.orders);
      return;
    }
    FixLaterSteps(s, k);
  }

  /** The single-order repair of order `k` seen from the other orders:
      they are untouched and, as the records only grow, a complete one
      stays complete. */
  method RepairOrderKeepingOthers(s: Store, k: nat)
    requires s.Valid() && 1 <= k <= |s.orders|
    modifies s
    ensures s.Valid() && |s.orders| == |old(s.orders)|
    ensures forall j :: 0 <= j < |s.orders| && j != k - 1 ==> s.orders[j] == old(s.orders)[j]
    ensures forall j :: 0 <= j < |s.orders| && j != k - 1 && IsComplete(old(s.orders)[j], old(s.pricelists)) ==>
      IsComplete(s.orders[j], s.pricelists)
    ensures KeepsSetFields(old(s.orders)[k - 1], s.orders[k - 1])
    ensures s.currencies != 0 ==> IsComplete(s.orders[k - 1], s.pricelists)
    ensures Grows(old(s.pricelists), s.pricelists, old(s.partners), s.partners)
  {
    var _ := FixSingleOrderForCartSummary(s, k);
    forall j | 0 <= j < |s.orders| && j != k - 1 && IsComplete(old(s.orders)[j], old(s.pricelists))
      ensures IsComplete(s.orders[j], s.pricelists)
    {
      GrowsKeepsComplete(old(s.orders)[j], old(s.pricelists), s.pricelists, old(s.partners), s.partners);
    }
  }

  /** `_ensure_cart_summary_always_works`: every order that was problematic
      when the loop started is repaired on its own, whatever the repair of
      the others gives; it always reports success. Orders that were not
      problematic are untouched, and when a currency exists every repaired
      order is complete, so that no order is problematic any more. */
  method EnsureCartSummaryAlwaysWorks(s: Store) returns (ok: bool)
    requires s.Valid()
    modifies s
    ensures s.Valid() && ok
    ensures |s.orders| == |old(s.orders)|
    ensures forall j :: 0 <= j < |s.orders| && !Problematic(old(s.orders)[j], old(s.pricelists)) ==> s.orders[j] == old(s.orders)[j]
    ensures forall j :: 0 <= j < |s.orders| ==> KeepsSetFields(old(s.orders)[j], s.orders[j])
    ensures s.currencies != 0 ==>
      forall j :: 0 <= j < |s.orders| && Problematic(old(s.orders)[j], old(s.pricelists)) ==> IsComplete(s.orders[j], s.pricelists)
    ensures Grows(old(s.pricelists), s.pricelists, old(s.partners), s.partners)
    ensures s.currencies != 0 ==> forall j :: 0 <= j < |s.orders| ==> !Problematic(s.orders[j], s.pricelists)
  {
    var orders0 := s.orders;
    var pl0 := s.pricelists;
    assert s.partners[..|s.partners|] == s.partners;
    var k := 0;
    while k < |orders0|
      invariant 0 <= k <= |orders0| == |s.orders|
      invariant s.Valid()
      invariant forall j :: k <= j < |orders0| ==> s.orders[j] == orders0[j]
      invariant forall j :: 0 <= j < k && !Problematic(orders0[j], pl0) ==> s.orders[j] == orders0[j]
      invariant forall j :: 0 <= j < k ==> KeepsSetFields(orders0[j], s.orders[j])
      invariant s.currencies != 0 ==>
        forall j :: 0 <= j < k && Problematic(orders0[j], pl0) ==> IsComplete(s.orders[j], s.pricelists)
      invariant Grows(old(s.pricelists), s.pricelists, old(s.partners), s.partners)
    {
      if Problematic(orders0[k], pl0) {
        ghost var pl := s.pricelists;
        ghost var pa := s.partners;
        RepairOrderKeepingOthers(s, k + 1);
        GrowsTransitive(old(s.pricelists), pl, s.pricelists, old(s.partners), pa, s.partners);
      }
      k := k + 1;
    }
    forall j | 0 <= j < |s.orders| && s.currencies != 0
      ensures !Problematic(s.orders[j], s.pricelists)
    {
      if !Problematic(orders0[j], pl0) {
        GrowsKeepsUnproblematic(orders0[j], pl0, s.pricelists, old(s.partners), s.partners);
      }
    }
    ok := true;
  }

  /** The backup order on the hard-coded ids 1. */
  const BackupOrder := SaleOrder("Orden de Respaldo - Cart Summary", 1, 1, 1, 0.0)

  /** `_create_backup_order_for_cart_summary`: the backup order, which can
      be created exactly when price list 1, currency 1 and partner 1 exist;
      None (0) otherwise. */
  method CreateBackupOrderForCartSummary(s: Store) returns (id: nat)
    requires s.Valid()
    modifies s
    ensures s.Valid()
    ensures s.pricelists == old(s.pricelists) && s.partners == old(s.partners)
    ensures id != 0 <==> |s.pricelists| >= 1 && |s.partners| >= 1 && s.currencies >= 1
    ensures id != 0 ==> id == |s.orders| && s.orders == old(s.orders) + [BackupOrder]
    ensures id == 0 ==> s.orders == old(s.orders)
  {
    var created := s.CreateOrder(BackupOrder);
    id := if created.Some? then created.value else 0;
  }

  /** `search([pricelist set, its currency set, currency set, partner set],
      limit=1)`: the first complete order, 0 when there is none. */
  function FirstCompleteOrder(orders: seq<SaleOrder>, pricelists: seq<Pricelist>): (id: nat)
    ensures id <= |orders|
    ensures id == 0 <==> forall j :: 0 <= j < |orders| ==> !IsComplete(orders[j], pricelists)
    ensures id > 0 ==> IsComplete(orders[id - 1], pricelists) && forall j :: 0 <= j < id - 1 ==> !IsComplete(orders[j], pricelists)
  {
    if orders == [] then 0
    else if IsComplete(orders[0], pricelists) then 1
    else
      var rest := FirstCompleteOrder(orders[1..], pricelists);
      if rest == 0 then 0 else rest + 1
  }

  /** `_get_any_working_order_for_cart_summary`: the first complete order,
      returned before anything is created; else a new safe order; else the
      backup order. Nothing (0) only when there is neither a complete order
      nor any currency. */
  method GetAnyWorkingOrderForCartSummary(s: Store) returns (id: nat)
    requires s.Valid()
    modifies s
    ensures s.Valid()
    ensures id <= |s.orders|
    ensures FirstCompleteOrder(old(s.orders), old(s.pricelists)) != 0 ==>
      id == FirstCompleteOrder(old(s.orders), old(s.pricelists)) &&
      s.orders == old(s.orders) && s.pricelists == old(s.pricelists) && s.partners == old(s.partners)
    ensures FirstCompleteOrder(old(s.orders), old(s.pricelists)) == 0 ==> (id == 0 <==> s.currencies == 0)
    ensures id == 0 ==> s.orders == old(s.orders)
    ensures FirstCompleteOrder(old(s.orders), old(s.pricelists)) == 0 && id != 0 ==>
      (id == |s.orders| && s.orders[id - 1].pricelist != 0 && s.orders[id - 1].currency != 0 && s.orders[id - 1].partner != 0)
  {
    id := FirstCompleteOrder(s.orders, s.pricelists);
    if id != 0 {
      return;
    }
    id := CreateSafeOrderForCartSummary(s);
    if id != 0 {
      return;
    }
    id := CreateBackupOrderForCartSummary(s);
  }

  /** `_auto_fix_cart_summary_on_load`: the immediate cart-summary fix, and
      its safe order (0 when there is no currency); with a currency, no
      order is left without a price list. */
  method AutoFixCartSummaryOnLoad(s: Store) returns (id: nat)
    requires s.Valid()
    modifies s
    ensures s.Valid()
    ensures id == 0 <==> s.currencies == 0
    ensures id != 0 ==>
      (id == |s.orders| && s.orders[id - 1].name == SafeOrderName &&
       s.orders[id - 1].pricelist != 0 && s.orders[id - 1].currency != 0 && s.orders[id - 1].partner != 0)
    ensures s.currencies != 0 ==> forall j :: 0 <= j < |s.orders| ==> s.orders[j].pricelist != 0
  {
    id := FixCartSummaryImmediately(s);
  }

  /** `_prevent_cart_summary_errors`: the per-order repair, then the backup
      order; True exactly when the backup order was created. The orders that
      were there keep what they had set, and with a currency none of them is
      problematic any more. */
  method PreventCartSummaryErrors(s: Store) returns (ok: bool)
    requires s.Valid()
    modifies s
    ensures s.Valid()
    ensures ok <==> |s.pricelists| >= 1 && |s.partners| >= 1 && s.currencies >= 1
    ensures |s.orders| == |old(s.orders)| + (if ok then 1 else 0)
    ensures ok ==> s.orders[|s.orders| - 1] == BackupOrder
    ensures forall j :: 0 <= j < |old(s.orders)| ==> KeepsSetFields(old(s.orders)[j], s.orders[j])
    ensures forall j :: 0 <= j < |old(s.orders)| && !Problematic(old(s.orders)[j], old(s.pricelists)) ==>
      s.orders[j] == old(s.orders)[j]
    ensures s.currencies != 0 ==> forall j :: 0 <= j < |old(s.orders)| ==> !Problematic(s.orders[j], s.pricelists)
    ensures Grows(old(s.pricelists), s.pricelists, old(s.partners), s.partners)
  {
    var _ := EnsureCartSummaryAlwaysWorks(s);
    var backup := CreateBackupOrderForCartSummary(s);
    ok := backup != 0;
  }

  /** `_emergency_cart_summary_fix`: every repair in turn, then one more
      backup order, which is returned (0 when it cannot be created). With a
      currency, every order but the backup orders ends up unproblematic. */
  method EmergencyCartSummaryFix(s: Store) returns (id: nat)
    requires s.Valid()
    modifies s
    ensures s.Valid()
    ensures id != 0 <==> |s.pricelists| >= 1 && |s.partners| >= 1 && s.currencies >= 1
    ensures id != 0 ==> id == |s.orders| && s.orders[id - 1] == BackupOrder
    ensures s.currencies != 0 ==>
      forall j :: 0 <= j < |s.orders| ==> !Problematic(s.orders[j], s.pricelists) || s.orders[j] == BackupOrder
  {
    var _ := AutoFixCartSummaryOnLoad(s);
    var _ := EnsureCartSummaryAlwaysWorks(s);
    var _ := PreventCartSummaryErrors(s);
    ghost var orders2 := s.orders;
    ghost var pl2 := s.pricelists;
    assert s.currencies != 0 ==>
      forall j :: 0 <= j < |orders2| ==> !Problematic(orders2[j], pl2) || orders2[j] == BackupOrder;
    id := CreateBackupOrderForCartSummary(s);
    assert s.orders == orders2 || s.orders == orders2 + [BackupOrder];
  }
}
