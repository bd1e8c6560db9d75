/** The sale-order error handler: default price list and currency lookups,
    `create` and `write` overrides that fill a missing price list, currency
    and partner, and repairs that may create a price list and write a
    currency onto an existing price list. */
module ErrorHandler {
  import opened Common
  import opened OrderStore

  // ---------------------------------------------------------------------
  // Default currency

  /** What `env.ref(xmlid)` does: the record, or a raised ValueError when
      the identifier is not found. */
  datatype RefResult = Found(id: nat) | RefRaised

  function EnvRef(id: nat): (r: RefResult)
    ensures r.Found? <==> id != 0
    ensures r.Found? ==> r.id == id
  {
    if id != 0 then Found(id) else RefRaised
  }

  /** The missing currency (None). */
  const NoCurrency: nat := 0

  /** `_get_default_currency` as written: `env.ref('base.PEN')` raises when
      PEN is missing, the handler returns None, and the USD and
      first-currency fallbacks are never reached. */
  function DefaultCurrencyAsWritten(pen: nat, usd: nat, currencies: nat): (c: nat)
    ensures pen != 0 ==> c == pen
    ensures pen == 0 ==> c == 0
  {
    match EnvRef(pen)
    case RefRaised => NoCurrency
    case Found(p) =>
      if p != 0 then p
      else
        match EnvRef(usd)
        case RefRaised => NoCurrency
        case Found(u) => if u != 0 then u else FirstRecord(currencies)
  }

  /** `_get_default_currency` as intended: PEN, else USD, else the first
      currency, else None (0). */
  function DefaultCurrency(pen: nat, usd: nat, currencies: nat): (c: nat)
    ensures pen != 0 ==> c == pen
    ensures pen == 0 && usd != 0 ==> c == usd
    ensures pen == 0 && usd == 0 ==> c == FirstRecord(currencies)
  {
    PenOrUsd(pen, if usd != 0 then usd else FirstRecord(currencies))
  }

  /** Whenever any currency exists, the default currency is one of them. */
  lemma DefaultCurrencyExists(pen: nat, usd: nat, currencies: nat)
    requires IsRef(pen, currencies) && IsRef(usd, currencies)
    ensures DefaultCurrency(pen, usd, currencies) <= currencies
    ensures DefaultCurrency(pen, usd, currencies) == 0 <==> currencies == 0
  {
  }

  /** Without PEN but with USD, the lookup as written finds nothing, where
      USD was meant. */
  lemma DefaultCurrencyAsWrittenMissesUsd()
    ensures DefaultCurrencyAsWritten(0, 2, 2) == 0 && DefaultCurrency(0, 2, 2) == 2
  {
  }

  // ---------------------------------------------------------------------
  // Default price list

  const DefaultPricelistName := "Lista de Precios por Defecto"

  /** The price list `_get_default_pricelist` creates: active, in PEN. */
  function DefaultPricelistRecord(pen: nat): Pricelist {
    Pricelist(DefaultPricelistName, true, pen)
  }

  /** The price lists after `_get_default_pricelist`: a new default price
      list when none is active and PEN exists; unchanged otherwise. (The
      unrestricted search it falls back on skips inactive price lists too.) */
  function PricelistsAfterDefault(pricelists: seq<Pricelist>, pen: nat): (r: seq<Pricelist>)
    ensures FirstActivePricelist(pricelists) == 0 && pen != 0 ==> r == pricelists + [DefaultPricelistRecord(pen)]
    ensures !(FirstActivePricelist(pricelists) == 0 && pen != 0) ==> r == pricelists
  {
    if FirstActivePricelist(pricelists) == 0 && pen != 0 then pricelists + [DefaultPricelistRecord(pen)] else pricelists
  }

  /** The price list `_get_default_pricelist` returns: the first active one,
      else the one it creates; none (0) when PEN is missing, because the
      creation then raises. */
  function DefaultPricelistId(pricelists: seq<Pricelist>, pen: nat): (id: nat)
    ensures id <= |PricelistsAfterDefault(pricelists, pen)|
    ensures id != 0 ==> PricelistsAfterDefault(pricelists, pen)[id - 1].active
    ensures id == 0 <==> FirstActivePricelist(pricelists) == 0 && pen == 0
  {
    var p := FirstActivePricelist(pricelists);
    if p != 0 then p else if pen != 0 then |pricelists| + 1 else 0
  }

  /** A second lookup creates nothing more and returns the same price
      list. */
  lemma {:induction false} DefaultPricelistIsStable(pricelists: seq<Pricelist>, pen: nat)
    ensures PricelistsAfterDefault(PricelistsAfterDefault(pricelists, pen), pen) == PricelistsAfterDefault(pricelists, pen)
    ensures DefaultPricelistId(PricelistsAfterDefault(pricelists, pen), pen) == DefaultPricelistId(pricelists, pen)
  {
    if FirstActivePricelist(pricelists) == 0 && pen != 0 {
      FirstActiveAppend(pricelists, DefaultPricelistRecord(pen));
    }
  }

  /** `_get_default_pricelist`. */
  method GetDefaultPricelist(s: Store) returns (id: nat)
    requires s.Valid()
    modifies s
    ensures s.Valid()
    ensures s.pricelists == PricelistsAfterDefault(old(s.pricelists), s.pen)
    ensures id == DefaultPricelistId(old(s.pricelists), s.pen)
    ensures s.orders == old(s.orders) && s.partners == old(s.partners)
  {
    id := FirstActivePricelist(s.pricelists);
    if id != 0 {
      return;
    }
    id := FirstActivePricelist(s.pricelists);
    if id != 0 {
      return;
    }
    if s.pen == 0 {
      return 0;
    }
    var created := s.CreatePricelist(DefaultPricelistRecord(s.pen));
    id := created.value;
  }

  // ---------------------------------------------------------------------
  // create and write

  /** The `vals` of a sale order creation; 0 stands for a missing or falsy
      value. */
  datatype OrderVals = OrderVals(name: string, pricelist: nat, currency: nat, partner: nat)

  /** `value or default` for a record id. */
  function OrElse(value: nat, default: nat): nat {
    if value != 0 then value else default
  }

  /** The values `create` hands to the ORM first: each missing reference is
      filled from its default when there is one. */
  function FilledVals(vals: OrderVals, pricelists: seq<Pricelist>, partners: seq<PartnerRecord>,
                      currencies: nat, pen: nat, usd: nat): (o: SaleOrder)
    ensures vals.pricelist != 0 ==> o.pricelist == vals.pricelist
    ensures vals.currency != 0 ==> o.currency == vals.currency
    ensures vals.partner != 0 ==> o.partner == vals.partner
  {
    SaleOrder(vals.name,
              OrElse(vals.pricelist, DefaultPricelistId(pricelists, pen)),
              OrElse(vals.currency, DefaultCurrency(pen, usd, currencies)),
              OrElse(vals.partner, FirstCustomer(partners)),
              0.0)
  }

  /** The outcome of the `create` override: the price lists and orders
      after it, and the new order's id (None when the retry with minimal
      values raises too). */
  function CreateOutcome(vals: OrderVals, pricelists: seq<Pricelist>, partners: seq<PartnerRecord>,
                         orders: seq<SaleOrder>, currencies: nat, pen: nat, usd: nat): (seq<Pricelist>, seq<SaleOrder>, Option<nat>)
  {
    var pl1 := if vals.pricelist == 0 then PricelistsAfterDefault(pricelists, pen) else pricelists;
    var filled := FilledVals(vals, pricelists, partners, currencies, pen, usd);
    var next: nat := |orders| + 1;
    if Creatable(filled, |pl1|, |partners|, currencies) then (pl1, orders + [filled], Some(next))
    else
      var pl2 := PricelistsAfterDefault(pl1, pen);
      var minimal := SaleOrder("Orden por Defecto", OrElse(DefaultPricelistId(pl1, pen), 1),
                               OrElse(DefaultCurrency(pen, usd, currencies), 1), 1, 0.0);
      if Creatable(minimal, |pl2|, |partners|, currencies) then (pl2, orders + [minimal], Some(next))
      else (pl2, orders, None)
  }

  /** A created order has its price list and partner, keeps every truthy
      reference the caller supplied unless the first attempt failed, and
      lacks a currency only when none was given and no default exists. */
  lemma CreatedOrderIsComplete(vals: OrderVals, pricelists: seq<Pricelist>, partners: seq<PartnerRecord>,
                               orders: seq<SaleOrder>, currencies: nat, pen: nat, usd: nat)
    ensures var r := CreateOutcome(vals, pricelists, partners, orders, currencies, pen, usd);
      r.2.Some? ==>
        |r.1| == |orders| + 1 && r.1[..|orders|] == orders && r.2.value == |orders| + 1 &&
        var o := r.1[|orders|];
        o.pricelist != 0 && o.partner != 0 &&
        (o.currency == 0 ==> vals.currency == 0 && DefaultCurrency(pen, usd, currencies) == 0) &&
        (o == FilledVals(vals, pricelists, partners, currencies, pen, usd) ||
         (o.name == "Orden por Defecto" && o.partner == 1))
  {
    var r := CreateOutcome(vals, pricelists, partners, orders, currencies, pen, usd);
    if r.2.Some? {
      assert (orders + [r.1[|orders|]])[..|orders|] == orders;
    }
  }

  /** Creation fails only when there is no partner with id 1, no currency
      at all, or no price list at all and no PEN to create one in. */
  lemma CreateSucceedsWithFallbacks(vals: OrderVals, pricelists: seq<Pricelist>, partners: seq<PartnerRecord>,
                                    orders: seq<SaleOrder>, currencies: nat, pen: nat, usd: nat)
    requires IsRef(pen, currencies) && IsRef(usd, currencies)
    requires |partners| >= 1 && currencies >= 1 && (|pricelists| >= 1 || pen != 0)
    ensures CreateOutcome(vals, pricelists, partners, orders, currencies, pen, usd).2.Some?
  {
    var pl1 := if vals.pricelist == 0 then PricelistsAfterDefault(pricelists, pen) else pricelists;
    DefaultCurrencyExists(pen, usd, currencies);
    assert |pl1| >= |pricelists|;
  }

  /** The head of the `create` override: each missing reference of `vals`
      is filled from its default, the default price list being created
      when none is active. */
  method FillCreateVals(s: Store, vals: OrderVals) returns (filled: SaleOrder)
    requires s.Valid()
    modifies s
    ensures s.Valid()
    ensures s.pricelists == (if vals.pricelist == 0 then PricelistsAfterDefault(old(s.pricelists), s.pen) else old(s.pricelists))
    ensures filled == FilledVals(vals, old(s.pricelists), s.partners, s.currencies, s.pen, s.usd)
    ensures s.orders == old(s.orders) && s.partners == old(s.partners)
  {
    var v := vals;
    if v.pricelist == 0 {
      var p := GetDefaultPricelist(s);
      if p != 0 {
        v := v.(pricelist := p);
      }
    }
    if v.currency == 0 {
      var c := DefaultCurrency(s.pen, s.usd, s.currencies);
      if c != 0 {
        v := v.(currency := c);
      }
    }
    if v.partner == 0 {
      var c := FirstCustomer(s.partners);
      if c != 0 {
        v := v.(partner := c);
      }
    }
    filled := SaleOrder(v.name, v.pricelist, v.currency, v.partner, 0.0);
  }

  /** The `create` override. */
  method Create(s: Store, vals: OrderVals) returns (id: Option<nat>)
    requires s.Valid()
    modifies s
    ensures s.Valid()
    ensures (s.pricelists, s.orders, id) ==
      CreateOutcome(vals, old(s.pricelists), s.partners, old(s.orders), s.currencies, s.pen, s.usd)
    ensures s.partners == old(s.partners)
  {
    var filled := FillCreateVals(s, vals);
    ghost var pl1 := s.pricelists;
    id := s.CreateOrder(filled);
    if id.Some? {
      return;
    }
    var p1 := GetDefaultPricelist(s);
    var p2 := GetDefaultPricelist(s);
    DefaultPricelistIsStable(pl1, s.pen);
    var c := DefaultCurrency(s.pen, s.usd, s.currencies);
    var minimal := SaleOrder("Orden por Defecto", if p1 != 0 then p2 else 1, if c != 0 then c else 1, 1, 0.0);
    id := s.CreateOrder(minimal);
  }

  /** The `vals` of an order write: each key absent (None) or present, with
      `Some(0)` for a falsy value. */
  datatype WriteVals = WriteVals(pricelist: Option<nat>, currency: Option<nat>)

  /** The outcome of a write: True, False, or an exception. */
  datatype WriteResult = WroteTrue | WroteFalse | WriteRaised

  /** A present but falsy key is replaced by its default, when there is
      one; absent keys stay absent. */
  function DefaultedWriteVals(vals: WriteVals, pricelists: seq<Pricelist>, currencies: nat, pen: nat, usd: nat): (w: WriteVals)
    ensures w.pricelist.Some? <==> vals.pricelist.Some?
    ensures w.currency.Some? <==> vals.currency.Some?
    ensures vals.pricelist.Some? && vals.pricelist.value != 0 ==> w.pricelist == vals.pricelist
    ensures vals.currency.Some? && vals.currency.value != 0 ==> w.currency == vals.currency
  {
    WriteVals(
      if vals.pricelist == Some(0) && DefaultPricelistId(pricelists, pen) != 0 then Some(DefaultPricelistId(pricelists, pen)) else vals.pricelist,
      if vals.currency == Some(0) && DefaultCurrency(pen, usd, currencies) != 0 then Some(DefaultCurrency(pen, usd, currencies)) else vals.currency)
  }

  /** The outcome of the `write` override on order `k`: the price lists and
      orders after it, and its result. When the ORM rejects the values, the
      keys present are retried with their defaults (or id 1). */
  function WriteOutcome(k: nat, vals: WriteVals, pricelists: seq<Pricelist>, orders: seq<SaleOrder>,
                        currencies: nat, pen: nat, usd: nat): (seq<Pricelist>, seq<SaleOrder>, WriteResult)
    requires 1 <= k <= |orders|
  {
    var pl1 := if vals.pricelist == Some(0) then PricelistsAfterDefault(pricelists, pen) else pricelists;
    var w := DefaultedWriteVals(vals, pricelists, currencies, pen, usd);
    if WritableFields(w.pricelist, w.currency, |pl1|, currencies) then
      (pl1, orders[k - 1 := WithFields(orders[k - 1], w.pricelist, w.currency)], WroteTrue)
    else
      var pl2 := if vals.pricelist.Some? then PricelistsAfterDefault(pl1, pen) else pl1;
      var mp := if vals.pricelist.Some? then Some(OrElse(DefaultPricelistId(pl1, pen), 1)) else None;
      var mc := if vals.currency.Some? then Some(OrElse(DefaultCurrency(pen, usd, currencies), 1)) else None;
      if mp.None? && mc.None? then (pl2, orders, WroteFalse)
      else if WritableFields(mp, mc, |pl2|, currencies) then
        (pl2, orders[k - 1 := WithFields(orders[k - 1], mp, mc)], WroteTrue)
      else (pl2, orders, WriteRaised)
  }

  /** A write with only truthy values (or none) reaches the ORM unchanged:
      no default is looked up and nothing is created. */
  lemma WriteKeepsTruthyValues(k: nat, vals: WriteVals, pricelists: seq<Pricelist>, orders: seq<SaleOrder>,
                               currencies: nat, pen: nat, usd: nat)
    requires 1 <= k <= |orders|
    requires vals.pricelist != Some(0) && vals.currency != Some(0)
    requires WritableFields(vals.pricelist, vals.currency, |pricelists|, currencies)
    ensures WriteOutcome(k, vals, pricelists, orders, currencies, pen, usd) ==
      (pricelists, orders[k - 1 := WithFields(orders[k - 1], vals.pricelist, vals.currency)], WroteTrue)
  {
    assert DefaultedWriteVals(vals, pricelists, currencies, pen, usd) == vals;
  }

  /** Clearing the price list of an order never leaves it without one when
      a default exists: the default is written instead. */
  lemma ClearedPricelistIsReplaced(k: nat, vals: WriteVals, pricelists: seq<Pricelist>, orders: seq<SaleOrder>,
                                   currencies: nat, pen: nat, usd: nat)
    requires 1 <= k <= |orders| && IsRef(pen, currencies) && IsRef(usd, currencies)
    requires vals.pricelist == Some(0) && DefaultPricelistId(pricelists, pen) != 0
    requires vals.currency.None? || currencies != 0
    ensures var r := WriteOutcome(k, vals, pricelists, orders, currencies, pen, usd);
      r.2 == WroteTrue && r.1[k - 1].pricelist == DefaultPricelistId(pricelists, pen)
  {
    DefaultCurrencyExists(pen, usd, currencies);
    DefaultPricelistIsStable(pricelists, pen);
  }

  /** The head of the `write` override: a present but falsy price list or
      currency is replaced by its default, the default price list being
      created when none is active. */
  method DefaultWriteVals(s: Store, vals: WriteVals) returns (w: WriteVals)
    requires s.Valid()
    modifies s
    ensures s.Valid()
    ensures s.pricelists == (if vals.pricelist == Some(0) then PricelistsAfterDefault(old(s.pricelists), s.pen) else old(s.pricelists))
    ensures w == DefaultedWriteVals(vals, old(s.pricelists), s.currencies, s.pen, s.usd)
    ensures s.orders == old(s.orders) && s.partners == old(s.partners)
  {
    w := vals;
    if vals.pricelist == Some(0) {
      var p := GetDefaultPricelist(s);
      if p != 0 {
        w := w.(pricelist := Some(p));
      }
    }
    if vals.currency == Some(0) {
      var c := DefaultCurrency(s.pen, s.usd, s.currencies);
      if c != 0 {
        w := w.(currency := Some(c));
      }
    }
  }

  /** The `write` override on order `k`. */
  method Write(s: Store, k: nat, vals: WriteVals) returns (result: WriteResult)
    requires s.Valid() && 1 <= k <= |s.orders|
    modifies s
    ensures s.Valid()
    ensures (s.pricelists, s.orders, result) ==
      WriteOutcome(k, vals, old(s.pricelists), old(s.orders), s.currencies, s.pen, s.usd)
    ensures s.partners == old(s.partners)
  {
    var w := DefaultWriteVals(s, vals);
    ghost var pl1 := s.pricelists;
    var ok := s.WriteOrderFields(k, w.pricelist, w.currency);
    if ok {
      return WroteTrue;
    }
    var mp: Option<nat> := None;
    if vals.pricelist.Some? {
      var p1 := GetDefaultPricelist(s);
      var p2 := GetDefaultPricelist(s);
      DefaultPricelistIsStable(pl1, s.pen);
      mp := Some(if p1 != 0 then p2 else 1);
    }
    var mc: Option<nat> := None;
    if vals.currency.Some? {
      var c := DefaultCurrency(s.pen, s.usd, s.currencies);
      mc := Some(if c != 0 then c else 1);
    }
    if mp.None? && mc.None? {
      return WroteFalse;
    }
    ok := s.WriteOrderFields(k, mp, mc);
    result := if ok then WroteTrue else WriteRaised;
  }

  // ---------------------------------------------------------------------
  // Repairs

  /** An order with all it needs: a price list with a currency, a currency
      and a partner. */
  predicate IsComplete(o: SaleOrder, pricelists: seq<Pricelist>) {
    o.pricelist != 0 && PricelistCurrency(pricelists, o.pricelist) != 0 && o.currency != 0 && o.partner != 0
  }

  /** The order and price lists after `_ensure_pricelist_exists(order)`,
      and its result. A missing price list becomes the default one (created
      in PEN when none is active); a price list without a currency has the
      default currency written onto it. */
  function PricelistRepair(o: SaleOrder, pricelists: seq<Pricelist>, currencies: nat, pen: nat, usd: nat): (r: (SaleOrder, seq<Pricelist>, bool))
    requires o.pricelist <= |pricelists|
    ensures r.0 == o.(pricelist := OrElse(o.pricelist, DefaultPricelistId(pricelists, pen)))
    ensures r.2 <==> r.0.pricelist != 0 && PricelistCurrency(r.1, r.0.pricelist) != 0
    ensures r.2 <==> (o.pricelist != 0 || DefaultPricelistId(pricelists, pen) != 0) &&
                     (PricelistCurrency(pricelists, r.0.pricelist) != 0 || DefaultCurrency(pen, usd, currencies) != 0 ||
                      r.0.pricelist == |pricelists| + 1)
    ensures |pricelists| <= |r.1| <= |pricelists| + 1
    ensures |r.1| == |pricelists| + 1 ==> o.pricelist == 0 && r.1 == pricelists + [DefaultPricelistRecord(pen)]
    ensures forall i :: 0 <= i < |pricelists| && i != r.0.pricelist - 1 ==> r.1[i] == pricelists[i]
    ensures 1 <= r.0.pricelist <= |pricelists| ==>
      var p := r.0.pricelist;
      r.1[p - 1] == (if pricelists[p - 1].currency == 0 then pricelists[p - 1].(currency := DefaultCurrency(pen, usd, currencies))
                     else pricelists[p - 1])
  {
    var pl1 := if o.pricelist == 0 then PricelistsAfterDefault(pricelists, pen) else pricelists;
    var p := OrElse(o.pricelist, DefaultPricelistId(pricelists, pen));
    var o1 := o.(pricelist := p);
    if p == 0 then (o1, pl1, false)
    else if PricelistCurrency(pl1, p) != 0 then (o1, pl1, true)
    else
      var c := DefaultCurrency(pen, usd, currencies);
      if c == 0 then (o1, pl1, false)
      else (o1, pl1[p - 1 := pl1[p - 1].(currency := c)], true)
  }

  /** `_ensure_pricelist_exists(order)` on order `k`. */
  method EnsurePricelistExists(s: Store, k: nat) returns (ok: bool)
    requires s.Valid() && 1 <= k <= |s.orders|
    modifies s
    ensures s.Valid() && |s.orders| == |old(s.orders)|
    ensures (s.orders[k - 1], s.pricelists, ok) ==
      PricelistRepair(old(s.orders)[k - 1], old(s.pricelists), s.currencies, s.pen, s.usd)
    ensures s.orders == old(s.orders)[k - 1 := s.orders[k - 1]]
    ensures s.partners == old(s.partners)
  {
    var o := s.orders[k - 1];
    if o.pricelist == 0 {
      var p := GetDefaultPricelist(s);
      if p != 0 {
        o := o.(pricelist := p);
        s.WriteOrder(k, o);
      } else {
        return false;
      }
    }
    if PricelistCurrency(s.pricelists, o.pricelist) == 0 {
      var c := DefaultCurrency(s.pen, s.usd, s.currencies);
      if c != 0 {
        s.WritePricelistCurrency(o.pricelist, c);
      } else {
        return false;
      }
    }
    return true;
  }

  /** The order and price lists after `_ensure_order_validity(order)`, and
      its result: the price list step, then a missing order currency set to
      the default currency, then a missing partner set to the first
      customer; the first step that fails stops the repair. */
  function ValidityRepair(o: SaleOrder, pricelists: seq<Pricelist>, partners: seq<PartnerRecord>,
                          currencies: nat, pen: nat, usd: nat): (r: (SaleOrder, seq<Pricelist>, bool))
    requires o.pricelist <= |pricelists|
    ensures var pr := PricelistRepair(o, pricelists, currencies, pen, usd);
      r.1 == pr.1 && r.0 == pr.0.(currency := r.0.currency, partner := r.0.partner)
    ensures r.0.currency ==
      (if o.currency == 0 && PricelistRepair(o, pricelists, currencies, pen, usd).2 then DefaultCurrency(pen, usd, currencies)
       else o.currency)
    ensures r.0.partner ==
      (if o.partner == 0 && PricelistRepair(o, pricelists, currencies, pen, usd).2 &&
          (o.currency != 0 || DefaultCurrency(pen, usd, currencies) != 0)
       then FirstCustomer(partners) else o.partner)
    ensures r.2 <==> IsComplete(r.0, r.1)
    ensures r.2 <==>
      PricelistRepair(o, pricelists, currencies, pen, usd).2 &&
      (o.currency != 0 || DefaultCurrency(pen, usd, currencies) != 0) && (o.partner != 0 || FirstCustomer(partners) != 0)
  {
    var pr := PricelistRepair(o, pricelists, currencies, pen, usd);
    if !pr.2 then pr
    else
      var c := DefaultCurrency(pen, usd, currencies);
      if pr.0.currency == 0 && c == 0 then (pr.0, pr.1, false)
      else
        var o2 := pr.0.(currency := OrElse(pr.0.currency, c));
        var customer := FirstCustomer(partners);
        if o2.partner == 0 && customer == 0 then (o2, pr.1, false)
        else (o2.(partner := OrElse(o2.partner, customer)), pr.1, true)
  }

  /** An order the repair reports valid is complete, and repairing it again
      changes nothing. */
  lemma {:induction false} ValidityRepairIsIdempotent(o: SaleOrder, pricelists: seq<Pricelist>, partners: seq<PartnerRecord>,
                                                      currencies: nat, pen: nat, usd: nat)
    requires o.pricelist <= |pricelists|
    requires ValidityRepair(o, pricelists, partners, currencies, pen, usd).2
    ensures var r := ValidityRepair(o, pricelists, partners, currencies, pen, usd);
      r.0.pricelist <= |r.1| && ValidityRepair(r.0, r.1, partners, currencies, pen, usd) == r
  {
    var r := ValidityRepair(o, pricelists, partners, currencies, pen, usd);
    var again := PricelistRepair(r.0, r.1, currencies, pen, usd);
    assert again.1 == r.1 by {
      assert PricelistCurrency(r.1, r.0.pricelist) != 0;
    }
  }

  /** `_ensure_order_validity(order)` on order `k`. */
  method EnsureOrderValidity(s: Store, k: nat) returns (ok: bool)
    requires s.Valid() && 1 <= k <= |s.orders|
    modifies s
    ensures s.Valid() && |s.orders| == |old(s.orders)|
    ensures (s.orders[k - 1], s.pricelists, ok) ==
      ValidityRepair(old(s.orders)[k - 1], old(s.pricelists), s.partners, s.currencies, s.pen, s.usd)
    ensures s.orders == old(s.orders)[k - 1 := s.orders[k - 1]]
    ensures s.partners == old(s.partners)
  {
    ok := EnsurePricelistExists(s, k);
    if !ok {
      return;
    }
    var o := s.orders[k - 1];
    if o.currency == 0 {
      var c := DefaultCurrency(s.pen, s.usd, s.currencies);
      if c != 0 {
        o := o.(currency := c);
        s.WriteOrder(k, o);
      } else {
        return false;
      }
    }
    if o.partner == 0 {
      var c := FirstCustomer(s.partners);
      if c != 0 {
        o := o.(partner := c);
        s.WriteOrder(k, o);
      } else {
        return false;
      }
    }
    return true;
  }

  /** `_get_order_for_display(order_id)`: an existing order, after the
      validity repair (whose result is ignored); None (0) for an id that
      does not exist. */
  method GetOrderForDisplay(s: Store, orderId: nat) returns (order: nat)
    requires s.Valid()
    modifies s
    ensures s.Valid() && |s.orders| == |old(s.orders)|
    ensures order == (if 1 <= orderId <= |s.orders| then orderId else 0)
    ensures 1 <= orderId <= |old(s.orders)| ==>
      var r := ValidityRepair(old(s.orders)[orderId - 1], old(s.pricelists), s.partners, s.currencies, s.pen, s.usd);
      s.orders == old(s.orders)[orderId - 1 := r.0] && s.pricelists == r.1
    ensures !(1 <= orderId <= |s.orders|) ==> s.orders == old(s.orders) && s.pricelists == old(s.pricelists)
    ensures s.partners == old(s.partners)
  {
    if 1 <= orderId <= |s.orders| {
      var _ := EnsureOrderValidity(s, orderId);
      return orderId;
    }
    return 0;
  }

  /** The temporary order `_create_dummy_order_for_display` asks `create`
      for: the default price list (or 1), the default currency (or 1) and
      partner 1. */
  function DummyOrder(pricelists: seq<Pricelist>, currencies: nat, pen: nat, usd: nat): SaleOrder {
    SaleOrder("Orden Temporal", OrElse(DefaultPricelistId(pricelists, pen), 1), OrElse(DefaultCurrency(pen, usd, currencies), 1), 1, 0.0)
  }

  /** The `create` override on the temporary order: after the price list
      lookups it finds nothing to fill, and it succeeds exactly when partner
      1 exists, some currency exists, and some price list exists or can be
      created in PEN; the minimal retry asks for the same order and fails
      alike. */
  lemma DummyOrderOutcome(pricelists: seq<Pricelist>, partners: seq<PartnerRecord>, orders: seq<SaleOrder>,
                          currencies: nat, pen: nat, usd: nat)
    requires IsRef(pen, currencies) && IsRef(usd, currencies)
    ensures var d := DummyOrder(pricelists, currencies, pen, usd);
      var ok := |partners| >= 1 && currencies >= 1 && (|pricelists| >= 1 || pen != 0);
      CreateOutcome(OrderVals(d.name, d.pricelist, d.currency, d.partner), PricelistsAfterDefault(pricelists, pen),
                    partners, orders, currencies, pen, usd)
      == (PricelistsAfterDefault(pricelists, pen), if ok then orders + [d] else orders, if ok then Some(|orders| + 1) else None)
  {
    DefaultCurrencyExists(pen, usd, currencies);
    DefaultPricelistIsStable(pricelists, pen);
  }

  /** `_create_dummy_order_for_display`: the `create` override on the
      temporary order; None (0) when that raises. */
  method CreateDummyOrderForDisplay(s: Store) returns (id: nat)
    requires s.Valid()
    modifies s
    ensures s.Valid()
    ensures s.partners == old(s.partners)
    ensures s.pricelists == PricelistsAfterDefault(old(s.pricelists), s.pen)
    ensures id != 0 <==> |s.partners| >= 1 && s.currencies >= 1 && (|old(s.pricelists)| >= 1 || s.pen != 0)
    ensures id != 0 ==> id == |s.orders| && s.orders == old(s.orders) + [DummyOrder(old(s.pricelists), s.currencies, s.pen, s.usd)]
    ensures id == 0 ==> s.orders == old(s.orders)
  {
    ghost var pl0 := s.pricelists;
    var p1 := GetDefaultPricelist(s);
    var p2 := GetDefaultPricelist(s);
    DefaultPricelistIsStable(pl0, s.pen);
    var c := DefaultCurrency(s.pen, s.usd, s.currencies);
    var vals := OrderVals("Orden Temporal", if p1 != 0 then p2 else 1, if c != 0 then c else 1, 1);
    DummyOrderOutcome(pl0, s.partners, s.orders, s.currencies, s.pen, s.usd);
    var created := Create(s, vals);
    id := if created.Some? then created.value else 0;
  }

  /** `_get_safe_pricelist_currency(order)`: the order's price list
      currency when there is one, else the default currency (0 for None). */
  function SafePricelistCurrency(orders: seq<SaleOrder>, pricelists: seq<Pricelist>, k: nat,
                                 currencies: nat, pen: nat, usd: nat): (c: nat)
    ensures 1 <= k <= |orders| && PricelistCurrency(pricelists, orders[k - 1].pricelist) != 0 ==>
      c == PricelistCurrency(pricelists, orders[k - 1].pricelist)
    ensures !(1 <= k <= |orders| && PricelistCurrency(pricelists, orders[k - 1].pricelist) != 0) ==>
      c == DefaultCurrency(pen, usd, currencies)
  {
    if 1 <= k <= |orders| && orders[k - 1].pricelist != 0 && PricelistCurrency(pricelists, orders[k - 1].pricelist) != 0 then
      PricelistCurrency(pricelists, orders[k - 1].pricelist)
    else DefaultCurrency(pen, usd, currencies)
  }

  /** `_get_safe_order_amount(order)`: the order's total, 0 without an
      order (a read total is never None). */
  function SafeOrderAmount(orders: seq<SaleOrder>, k: nat): (amount: real)
    ensures 1 <= k <= |orders| ==> amount == orders[k - 1].amountTotal
    ensures !(1 <= k <= |orders|) ==> amount == 0.0
  {
    if 1 <= k <= |orders| then orders[k - 1].amountTotal else 0.0
  }
}
