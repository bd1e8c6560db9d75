/** The cart-summary error fix on `sale.order`: it gives every order without
    a price list one default price list (creating it when none is active),
    writes a default currency onto the price lists orders use that lack
    one, runs a per-order safety pass, and creates a safe order, creating a
    price list and a customer when none exist. */
module CartSummaryErrorFix {
  import opened OrderStore
  import opened SafeCartSummaryFix
  import opened ErrorHandler

  // ---------------------------------------------------------------------
  // The store-wide repair

  /** Whether some order refers to price list `id`. */
  predicate Referenced(orders: seq<SaleOrder>, id: nat) {
    exists j :: 0 <= j < |orders| && orders[j].pricelist == id
  }

  /** The price lists after the currency loop: each price list that an
      order uses and that has no currency gets `c`; the others are kept. */
  function WithCurrencyWhereUsed(pricelists: seq<Pricelist>, orders: seq<SaleOrder>, c: nat): (r: seq<Pricelist>)
    ensures |r| == |pricelists|
    ensures forall i :: 0 <= i < |pricelists| ==> r[i].name == pricelists[i].name && r[i].active == pricelists[i].active
    ensures forall i :: 0 <= i < |pricelists| && (pricelists[i].currency != 0 || !Referenced(orders, i + 1)) ==> r[i] == pricelists[i]
    ensures forall i :: 0 <= i < |pricelists| && pricelists[i].currency == 0 && Referenced(orders, i + 1) ==> r[i].currency == c
  {
    seq(|pricelists|, i requires 0 <= i < |pricelists| =>
      if pricelists[i].currency == 0 && Referenced(orders, i + 1) then pricelists[i].(currency := c) else pricelists[i])
  }

  /** After the currency loop every order with a price list has a price
      list with a currency, when the currency written is one. */
  lemma UsedPricelistsHaveCurrency(pricelists: seq<Pricelist>, orders: seq<SaleOrder>, c: nat)
    requires c != 0
    ensures forall j :: 0 <= j < |orders| && 1 <= orders[j].pricelist <= |pricelists| ==>
      PricelistCurrency(WithCurrencyWhereUsed(pricelists, orders, c), orders[j].pricelist) != 0
  {
    var r := WithCurrencyWhereUsed(pricelists, orders, c);
    forall j | 0 <= j < |orders| && 1 <= orders[j].pricelist <= |pricelists|
      ensures PricelistCurrency(r, orders[j].pricelist) != 0
    {
      assert Referenced(orders, orders[j].pricelist);
    }
  }

  /** An order more in the prefix adds its own price list to the ones
      referred to. */
  lemma ReferencedExtend(orders: seq<SaleOrder>, k: nat)
    requires k < |orders|
    ensures forall id :: Referenced(orders[..k + 1], id) <==> Referenced(orders[..k], id) || orders[k].pricelist == id
  {
    forall id
      ensures Referenced(orders[..k + 1], id) <==> Referenced(orders[..k], id) || orders[k].pricelist == id
    {
      if Referenced(orders[..k + 1], id) {
        var j :| 0 <= j < k + 1 && orders[..k + 1][j].pricelist == id;
        if j < k {
          assert orders[..k][j] == orders[..k + 1][j];
        }
      }
      if Referenced(orders[..k], id) {
        var j :| 0 <= j < k && orders[..k][j].pricelist == id;
        assert orders[..k + 1][j] == orders[..k][j];
      }
      assert orders[..k + 1][k] == orders[k];
    }
  }

  /** The currency loop: for each order whose price list (as found before
      the loop) has no currency, `c` is written onto that price list. */
  method WriteCurrencyOnUsedPricelists(s: Store, c: nat)
    requires s.Valid() && 1 <= c <= s.currencies
    modifies s
    ensures s.Valid()
    ensures s.pricelists == WithCurrencyWhereUsed(old(s.pricelists), s.orders, c)
    ensures s.orders == old(s.orders) && s.partners == old(s.partners)
  {
    var pl0 := s.pricelists;
    var k := 0;
    while k < |s.orders|
      invariant 0 <= k <= |s.orders|
      invariant s.Valid() && s.orders == old(s.orders) && s.partners == old(s.partners)
      invariant s.pricelists == WithCurrencyWhereUsed(pl0, s.orders[..k], c)
    {
      var o := s.orders[k];
      if o.pricelist != 0 && PricelistCurrency(pl0, o.pricelist) == 0 {
        s.WritePricelistCurrency(o.pricelist, c);
      }
      ReferencedExtend(s.orders, k);
      assert s.pricelists == WithCurrencyWhereUsed(pl0, s.orders[..k + 1], c) by {
        forall i | 0 <= i < |pl0|
          ensures s.pricelists[i] == WithCurrencyWhereUsed(pl0, s.orders[..k + 1], c)[i]
        {
          assert Referenced(s.orders[..k + 1], i + 1) <==> Referenced(s.orders[..k], i + 1) || o.pricelist == i + 1;
        }
      }
      k := k + 1;
    }
    assert s.orders[..k] == s.orders;
  }

  const DefaultPricelistRecordName := "Lista de Precios por Defecto"

  /** PEN when it exists, else the hard-coded currency id 1. */
  function PenOrOne(pen: nat): (c: nat)
    ensures c != 0
  {
    if pen != 0 then pen else 1
  }

  /** The price lists after the default price list lookup of the store-wide
      repair: a new active price list when none is active. */
  function WithDefaultPricelist(pricelists: seq<Pricelist>, name: string, pen: nat): (r: seq<Pricelist>)
    ensures FirstActivePricelist(pricelists) != 0 ==> r == pricelists
    ensures FirstActivePricelist(pricelists) == 0 ==>
      r == pricelists + [Pricelist(name, true, PenOrOne(pen))] && FirstActivePricelist(r) == |pricelists| + 1
  {
    if FirstActivePricelist(pricelists) != 0 then pricelists
    else
      FirstActiveAppend(pricelists, Pricelist(name, true, PenOrOne(pen)));
      pricelists + [Pricelist(name, true, PenOrOne(pen))]
  }

  /** `_fix_cart_summary_template_error`: every order without a price list
      gets the first active price list (created when there is none), then
      every price list an order uses gets the default currency when it has
      none. False, with nothing changed, when the price list cannot be
      created (no currency at all). */
  method FixCartSummaryTemplateError(s: Store) returns (ok: bool)
    requires s.Valid()
    modifies s
    ensures s.Valid()
    ensures s.partners == old(s.partners)
    ensures ok <==> FirstActivePricelist(old(s.pricelists)) != 0 || s.currencies != 0
    ensures !ok ==> s.orders == old(s.orders) && s.pricelists == old(s.pricelists)
    ensures ok ==>
      var pl1 := WithDefaultPricelist(old(s.pricelists), DefaultPricelistRecordName, s.pen);
      var c := DefaultCurrency(s.pen, s.usd, s.currencies);
      s.orders == AssignMissingPricelist(old(s.orders), FirstActivePricelist(pl1)) &&
      s.pricelists == (if c != 0 then WithCurrencyWhereUsed(pl1, s.orders, c) else pl1)
    ensures ok ==> forall j :: 0 <= j < |s.orders| ==> s.orders[j].pricelist != 0
    ensures ok && DefaultCurrency(s.pen, s.usd, s.currencies) != 0 ==>
      forall j :: 0 <= j < |s.orders| ==> PricelistCurrency(s.pricelists, s.orders[j].pricelist) != 0
  {
    var p := FirstActivePricelist(s.pricelists);
    if p == 0 {
      var created := s.CreatePricelist(Pricelist(DefaultPricelistRecordName, true, PenOrOne(s.pen)));
      if created.None? {
        return false;
      }
      p := created.value;
    }
    ghost var pl1 := s.pricelists;
    var _ := WriteMissingPricelists(s, p);
    AssignedOrdersHavePricelists(old(s.orders), p);
    var c := DefaultCurrency(s.pen, s.usd, s.currencies);
    DefaultCurrencyExists(s.pen, s.usd, s.currencies);
    if c != 0 {
      WriteCurrencyOnUsedPricelists(s, c);
      UsedPricelistsHaveCurrency(pl1, s.orders, c);
    }
    return true;
  }

  /** The repair's orders and price lists, when some price list is active
      or one can be created, are those of the two writes in turn. */
  lemma RepairUnfolds(orders: seq<SaleOrder>, pricelists: seq<Pricelist>, pen: nat, usd: nat, currencies: nat,
                      orders1: seq<SaleOrder>, pricelists1: seq<Pricelist>)
    requires PricelistRefsValid(orders, |pricelists|)
    requires FirstActivePricelist(pricelists) != 0 || currencies != 0
    requires var pl1 := WithDefaultPricelist(pricelists, DefaultPricelistRecordName, pen);
      var c := DefaultCurrency(pen, usd, currencies);
      orders1 == AssignMissingPricelist(orders, FirstActivePricelist(pl1)) &&
      pricelists1 == (if c != 0 then WithCurrencyWhereUsed(pl1, orders1, c) else pl1)
    ensures (orders1, pricelists1) == TemplateErrorRepair(orders, pricelists, pen, usd, currencies)
  {
  }

  /** Giving the orders a price list `p` of a longer list keeps their
      references valid, gives each one a price list, and keeps the ones
      they had. */
  lemma RepairKeepsRefs(orders: seq<SaleOrder>, n: nat, pl1: seq<Pricelist>, p: nat)
    requires PricelistRefsValid(orders, n) && n <= |pl1| && 1 <= p <= |pl1|
    ensures PricelistRefsValid(AssignMissingPricelist(orders, p), |pl1|)
    ensures forall j :: 0 <= j < |orders| ==> AssignMissingPricelist(orders, p)[j].pricelist != 0
    ensures forall j :: 0 <= j < |orders| && orders[j].pricelist != 0 ==> AssignMissingPricelist(orders, p)[j] == orders[j]
  {
    var o1 := AssignMissingPricelist(orders, p);
    forall j | 0 <= j < |orders|
      ensures o1[j].pricelist <= |pl1| && o1[j].pricelist != 0
    {
      assert o1[j] == WithPricelist(orders[j], p);
    }
  }

  /** The orders and price lists `_fix_cart_summary_template_error` leaves:
      unchanged when no price list is active and none can be created (no
      currency); otherwise every order without a price list has the first
      active one, which exists, and every order keeps a price list it had. */
  function TemplateErrorRepair(orders: seq<SaleOrder>, pricelists: seq<Pricelist>, pen: nat, usd: nat, currencies: nat): (r: (seq<SaleOrder>, seq<Pricelist>))
    requires PricelistRefsValid(orders, |pricelists|)
    ensures |r.0| == |orders| && PricelistRefsValid(r.0, |r.1|)
    ensures FirstActivePricelist(pricelists) == 0 && currencies == 0 ==> r == (orders, pricelists)
    ensures FirstActivePricelist(pricelists) != 0 || currencies != 0 ==>
      FirstActivePricelist(r.1) != 0 && forall j :: 0 <= j < |r.0| ==> r.0[j].pricelist != 0
    ensures forall j :: 0 <= j < |orders| && orders[j].pricelist != 0 ==> r.0[j] == orders[j]
  {
    if FirstActivePricelist(pricelists) == 0 && currencies == 0 then (orders, pricelists)
    else
      var pl1 := WithDefaultPricelist(pricelists, DefaultPricelistRecordName, pen);
      var p := FirstActivePricelist(pl1);
      var o1 := AssignMissingPricelist(orders, p);
      var c := DefaultCurrency(pen, usd, currencies);
      var pl2 := if c != 0 then WithCurrencyWhereUsed(pl1, o1, c) else pl1;
      RepairKeepsRefs(orders, |pricelists|, pl1, p);
      assert GainsCurrency(pl1, pl2, c);
      GainsCurrencyKeepsFirstActive(pl1, pl2, c);
      (o1, pl2)
  }

  // ---------------------------------------------------------------------
  // The per-order safety pass

  /** The price lists `after` differ from `before` only in that some
      price lists without a currency have gained currency `c`. */
  predicate GainsCurrency(before: seq<Pricelist>, after: seq<Pricelist>, c: nat) {
    |after| == |before| &&
    forall i :: 0 <= i < |before| ==>
      after[i] == before[i] || (before[i].currency == 0 && after[i] == before[i].(currency := c))
  }

  /** `after` keeps every field of `before` that is set. */
  predicate KeepsSetFields(before: SaleOrder, after: SaleOrder) {
    after.name == before.name && after.amountTotal == before.amountTotal &&
    (before.pricelist != 0 ==> after.pricelist == before.pricelist) &&
    (before.currency != 0 ==> after.currency == before.currency) &&
    (before.partner != 0 ==> after.partner == before.partner)
  }

  lemma GainsCurrencyTransitive(a: seq<Pricelist>, b: seq<Pricelist>, d: seq<Pricelist>, c: nat)
    requires GainsCurrency(a, b, c) && GainsCurrency(b, d, c)
    ensures GainsCurrency(a, d, c)
  {
  }

  /** Gaining currencies changes no active flag, so the first active price
      list stays the same. */
  lemma GainsCurrencyKeepsFirstActive(before: seq<Pricelist>, after: seq<Pricelist>, c: nat)
    requires GainsCurrency(before, after, c)
    ensures FirstActivePricelist(after) == FirstActivePricelist(before)
  {
    assert forall i :: 0 <= i < |before| ==> before[i].active == after[i].active by {
      forall i | 0 <= i < |before| ensures before[i].active == after[i].active {
        assert after[i] == before[i] || after[i] == before[i].(currency := c);
      }
    }
    FirstActiveSameFlags(before, after);
  }

  /** Orders that are complete stay complete when price lists gain
      currencies. */
  lemma GainsCurrencyKeepsComplete(orders: seq<SaleOrder>, before: seq<Pricelist>, after: seq<Pricelist>, c: nat)
    requires GainsCurrency(before, after, c)
    requires forall j :: 0 <= j < |orders| ==> IsComplete(orders[j], before)
    ensures forall j :: 0 <= j < |orders| ==> IsComplete(orders[j], after)
  {
    forall j | 0 <= j < |orders| ensures IsComplete(orders[j], after) {
      var p := orders[j].pricelist;
      assert before[p - 1].currency != 0;
      assert after[p - 1] == before[p - 1];
    }
  }

  /** One order of `_ensure_cart_summary_safety`: the order and the price
      lists after it. A missing price list becomes the first active one; a
      price list without a currency gets PEN or USD; a missing order
      currency comes from the price list, else PEN or USD; a missing partner
      becomes the first customer. Each default that does not exist leaves
      its field empty. */
  function SecureStep(o: SaleOrder, pricelists: seq<Pricelist>, partners: seq<PartnerRecord>, pen: nat, usd: nat): (r: (SaleOrder, seq<Pricelist>))
    requires o.pricelist <= |pricelists|
    ensures GainsCurrency(pricelists, r.1, PenOrUsd(pen, usd))
    ensures KeepsSetFields(o, r.0)
    ensures r.0.pricelist <= |pricelists|
    ensures FirstActivePricelist(pricelists) != 0 && PenOrUsd(pen, usd) != 0 && FirstCustomer(partners) != 0 ==>
      IsComplete(r.0, r.1)
  {
    var p := if o.pricelist != 0 then o.pricelist else FirstActivePricelist(pricelists);
    var c := PenOrUsd(pen, usd);
    var pl := if p != 0 && pricelists[p - 1].currency == 0 && c != 0 then pricelists[p - 1 := pricelists[p - 1].(currency := c)] else pricelists;
    var currency := if o.currency != 0 then o.currency else if p != 0 && PricelistCurrency(pl, p) != 0 then PricelistCurrency(pl, p) else c;
    var partner := if o.partner != 0 then o.partner else FirstCustomer(partners);
    (o.(pricelist := p, currency := currency, partner := partner), pl)
  }

  /** Every order refers to an existing price list or to none. */
  predicate PricelistRefsValid(orders: seq<SaleOrder>, pricelists: nat) {
    forall j :: 0 <= j < |orders| ==> orders[j].pricelist <= pricelists
  }

  /** `_ensure_cart_summary_safety` over `orders`, in order: the orders and
      the price lists after the pass. Fields already set are kept, and a
      price list only ever gains a currency. */
  function SafetyPass(orders: seq<SaleOrder>, pricelists: seq<Pricelist>, partners: seq<PartnerRecord>, pen: nat, usd: nat): (r: (seq<SaleOrder>, seq<Pricelist>))
    requires PricelistRefsValid(orders, |pricelists|)
    ensures |r.0| == |orders|
    ensures GainsCurrency(pricelists, r.1, PenOrUsd(pen, usd))
    ensures forall j :: 0 <= j < |orders| ==> KeepsSetFields(orders[j], r.0[j])
    decreases |orders|
  {
    if orders == [] then ([], pricelists)
    else
      var n := |orders| - 1;
      assert PricelistRefsValid(orders[..n], |pricelists|);
      var prev := SafetyPass(orders[..n], pricelists, partners, pen, usd);
      var step := SecureStep(orders[n], prev.1, partners, pen, usd);
      GainsCurrencyTransitive(pricelists, prev.1, step.1, PenOrUsd(pen, usd));
      (prev.0 + [step.0], step.1)
  }

  /** When an active price list, PEN or USD, and a customer all exist,
      every order is complete after the pass. */
  lemma {:induction false} SafetyPassCompletes(orders: seq<SaleOrder>, pricelists: seq<Pricelist>, partners: seq<PartnerRecord>, pen: nat, usd: nat)
    requires PricelistRefsValid(orders, |pricelists|)
    requires FirstActivePricelist(pricelists) != 0 && PenOrUsd(pen, usd) != 0 && FirstCustomer(partners) != 0
    ensures forall j :: 0 <= j < |orders| ==>
      IsComplete(SafetyPass(orders, pricelists, partners, pen, usd).0[j], SafetyPass(orders, pricelists, partners, pen, usd).1)
  {
    if orders != [] {
      var n := |orders| - 1;
      assert PricelistRefsValid(orders[..n], |pricelists|);
      var prev := SafetyPass(orders[..n], pricelists, partners, pen, usd);
      SafetyPassCompletes(orders[..n], pricelists, partners, pen, usd);
      GainsCurrencyKeepsFirstActive(pricelists, prev.1, PenOrUsd(pen, usd));
      var step := SecureStep(orders[n], prev.1, partners, pen, usd);
      GainsCurrencyKeepsComplete(prev.0, prev.1, step.1, PenOrUsd(pen, usd));
      var r := SafetyPass(orders, pricelists, partners, pen, usd);
      assert r.0 == prev.0 + [step.0] && r.1 == step.1;
    }
  }

  /** The pass over one order more is the pass over the prefix, then one
      step. */
  lemma SafetyPassSnoc(orders: seq<SaleOrder>, k: nat, pricelists: seq<Pricelist>, partners: seq<PartnerRecord>, pen: nat, usd: nat)
    requires k < |orders| && PricelistRefsValid(orders, |pricelists|)
    ensures PricelistRefsValid(orders[..k], |pricelists|) && PricelistRefsValid(orders[..k + 1], |pricelists|)
    ensures var prev := SafetyPass(orders[..k], pricelists, partners, pen, usd);
      var step := SecureStep(orders[k], prev.1, partners, pen, usd);
      SafetyPass(orders[..k + 1], pricelists, partners, pen, usd) == (prev.0 + [step.0], step.1)
  {
    assert orders[..k + 1][..k] == orders[..k];
    assert orders[..k + 1][k] == orders[k];
  }

  /** A pass over an order that is already complete leaves it as it is. */
  lemma CompleteOrderIsUntouched(o: SaleOrder, pricelists: seq<Pricelist>, partners: seq<PartnerRecord>, pen: nat, usd: nat)
    requires o.pricelist <= |pricelists| && IsComplete(o, pricelists)
    ensures SecureStep(o, pricelists, partners, pen, usd) == (o, pricelists)
  {
  }

  /** The first half of the safety pass on order `k`: its price list, then
      that price list's currency. */
  method SecurePricelist(s: Store, k: nat) returns (o: SaleOrder)
    requires s.Valid() && 1 <= k <= |s.orders|
    modifies s
    ensures s.Valid() && s.partners == old(s.partners)
    ensures var step := SecureStep(old(s.orders)[k - 1], old(s.pricelists), s.partners, s.pen, s.usd);
      o == old(s.orders)[k - 1].(pricelist := step.0.pricelist) && s.pricelists == step.1
    ensures s.orders == old(s.orders)[k - 1 := o]
  {
    o := s.orders[k - 1];
    if o.pricelist == 0 {
      var p := FirstActivePricelist(s.pricelists);
      if p != 0 {
        o := o.(pricelist := p);
        s.WriteOrder(k, o);
      }
    }
    if o.pricelist != 0 && PricelistCurrency(s.pricelists, o.pricelist) == 0 {
      var c := PenOrUsd(s.pen, s.usd);
      if c != 0 {
        s.WritePricelistCurrency(o.pricelist, c);
      }
    }
  }

  /** The second half of the safety pass on order `k`, once the first has
      run: the order's currency, then its partner. */
  method SecureCurrencyAndPartner(s: Store, k: nat, o: SaleOrder)
    requires s.Valid() && 1 <= k <= |s.orders| && s.orders[k - 1] == o
    requires o.pricelist != 0 || FirstActivePricelist(s.pricelists) == 0
    modifies s
    ensures s.Valid() && s.partners == old(s.partners) && s.pricelists == old(s.pricelists)
    ensures var step := SecureStep(o, s.pricelists, s.partners, s.pen, s.usd);
      s.orders == old(s.orders)[k - 1 := o.(currency := step.0.currency, partner := step.0.partner)]
  {
    ghost var step := SecureStep(o, s.pricelists, s.partners, s.pen, s.usd);
    var o' := o;
    if o'.currency == 0 {
      if o'.pricelist != 0 && PricelistCurrency(s.pricelists, o'.pricelist) != 0 {
        o' := o'.(currency := PricelistCurrency(s.pricelists, o'.pricelist));
        s.WriteOrder(k, o');
      } else {
        var c := PenOrUsd(s.pen, s.usd);
        if c != 0 {
          o' := o'.(currency := c);
          s.WriteOrder(k, o');
        }
      }
    }
    assert o' == o.(currency := step.0.currency) && s.orders == old(s.orders)[k - 1 := o'];
    if o'.partner == 0 {
      var c := FirstCustomer(s.partners);
      if c != 0 {
        o' := o'.(partner := c);
        s.WriteOrder(k, o');
      }
    }
  }

  /** `_ensure_cart_summary_safety` on order `k`. */
  method SecureOrder(s: Store, k: nat)
    requires s.Valid() && 1 <= k <= |s.orders|
    modifies s
    ensures s.Valid()
    ensures var step := SecureStep(old(s.orders)[k - 1], old(s.pricelists), s.partners, s.pen, s.usd);
      s.orders == old(s.orders)[k - 1 := step.0] && s.pricelists == step.1
    ensures s.partners == old(s.partners)
  {
    var o := SecurePricelist(s, k);
    SecureCurrencyAndPartner(s, k, o);
  }

  /** One turn of the loop of `_ensure_cart_summary_safety`: with the
      first `k` orders passed, pass order `k + 1`. */
  method SafetyPassTurn(s: Store, ghost orders0: seq<SaleOrder>, ghost pl0: seq<Pricelist>, k: nat)
    requires s.Valid() && k < |orders0| && PricelistRefsValid(orders0, |pl0|)
    requires PricelistRefsValid(orders0[..k], |pl0|)
    requires s.orders == SafetyPass(orders0[..k], pl0, s.partners, s.pen, s.usd).0 + orders0[k..]
    requires s.pricelists == SafetyPass(orders0[..k], pl0, s.partners, s.pen, s.usd).1
    modifies s
    ensures s.Valid() && s.partners == old(s.partners)
    ensures PricelistRefsValid(orders0[..k + 1], |pl0|)
    ensures s.orders == SafetyPass(orders0[..k + 1], pl0, s.partners, s.pen, s.usd).0 + orders0[k + 1..]
    ensures s.pricelists == SafetyPass(orders0[..k + 1], pl0, s.partners, s.pen, s.usd).1
  {
    ghost var prev := SafetyPass(orders0[..k], pl0, s.partners, s.pen, s.usd);
    ghost var step := SecureStep(orders0[k], prev.1, s.partners, s.pen, s.usd);
    assert s.orders[k] == orders0[k];
    SecureOrder(s, k + 1);
    SafetyPassSnoc(orders0, k, pl0, s.partners, s.pen, s.usd);
    assert s.orders == prev.0 + [step.0] + orders0[k + 1..];
  }

  /** The loop of `_ensure_cart_summary_safety`: order after order, the
      state follows the pass. */
  method RunSafetyPass(s: Store)
    requires s.Valid()
    modifies s
    ensures s.Valid()
    ensures PricelistRefsValid(old(s.orders), |old(s.pricelists)|)
    ensures (s.orders, s.pricelists) == SafetyPass(old(s.orders), old(s.pricelists), s.partners, s.pen, s.usd)
    ensures s.partners == old(s.partners)
  {
    ghost var orders0 := s.orders;
    ghost var pl0 := s.pricelists;
    assert PricelistRefsValid(orders0, |pl0|);
    assert orders0[..0] == [] && orders0[0..] == orders0;
    var k := 0;
    while k < |s.orders|
      invariant 0 <= k <= |orders0|
      invariant s.Valid() && s.partners == old(s.partners)
      invariant PricelistRefsValid(orders0[..k], |pl0|)
      invariant s.orders == SafetyPass(orders0[..k], pl0, s.partners, s.pen, s.usd).0 + orders0[k..]
      invariant s.pricelists == SafetyPass(orders0[..k], pl0, s.partners, s.pen, s.usd).1
    {
      SafetyPassTurn(s, orders0, pl0, k);
      k := k + 1;
    }
    assert k == |orders0| && orders0[..k] == orders0 && orders0[k..] == [];
    assert s.orders == SafetyPass(orders0, pl0, s.partners, s.pen, s.usd).0;
  }

  /** `_ensure_cart_summary_safety`: the per-order pass over every order;
      it always reports success. Set fields are kept, and when an active
      price list, PEN or USD, and a customer exist, every order ends up
      complete. */
  method EnsureCartSummarySafety(s: Store) returns (ok: bool)
    requires s.Valid()
    modifies s
    ensures s.Valid()
    ensures ok
    ensures PricelistRefsValid(old(s.orders), |old(s.pricelists)|)
    ensures (s.orders, s.pricelists) == SafetyPass(old(s.orders), old(s.pricelists), s.partners, s.pen, s.usd)
    ensures s.partners == old(s.partners)
    ensures FirstActivePricelist(s.pricelists) == FirstActivePricelist(old(s.pricelists))
    ensures |s.orders| == |old(s.orders)| && forall j :: 0 <= j < |s.orders| ==> KeepsSetFields(old(s.orders)[j], s.orders[j])
    ensures FirstActivePricelist(s.pricelists) != 0 && PenOrUsd(s.pen, s.usd) != 0 && FirstCustomer(s.partners) != 0 ==>
      forall j :: 0 <= j < |s.orders| ==> IsComplete(s.orders[j], s.pricelists)
  {
    ghost var orders0 := s.orders;
    ghost var pl0 := s.pricelists;
    RunSafetyPass(s);
    ok := true;
    GainsCurrencyKeepsFirstActive(pl0, s.pricelists, PenOrUsd(s.pen, s.usd));
    if FirstActivePricelist(pl0) != 0 && PenOrUsd(s.pen, s.usd) != 0 && FirstCustomer(s.partners) != 0 {
      SafetyPassCompletes(orders0, pl0, s.partners, s.pen, s.usd);
    }
  }

  // ---------------------------------------------------------------------
  // The safe order and the cart summary data

  const SafePricelistName := "Lista de Precios para Cart Summary"
  const DefaultCustomer := PartnerRecord("Cliente por Defecto", true, "cliente@default.com")
  const SafeOrderName := "Orden Segura para Cart Summary"

  /** `_create_safe_order_for_cart_summary`: an order on the first active
      price list (created when there is none), the default currency (or 1)
      and the first customer (created when there is none). It fails only
      when there is no currency at all; the price list or customer created
      before the failure stays. */
  method CreateSafeOrderForCartSummary(s: Store) returns (id: nat)
    requires s.Valid()
    modifies s
    ensures s.Valid()
    ensures id == 0 <==> s.currencies == 0
    ensures s.pricelists == (if s.currencies != 0 then WithDefaultPricelist(old(s.pricelists), SafePricelistName, s.pen) else old(s.pricelists))
    ensures s.partners == old(s.partners) ||
      (FirstCustomer(old(s.partners)) == 0 && s.partners == old(s.partners) + [DefaultCustomer])
    ensures s.currencies != 0 && FirstCustomer(old(s.partners)) == 0 ==> s.partners == old(s.partners) + [DefaultCustomer]
    ensures id == 0 ==> s.orders == old(s.orders)
    ensures id != 0 ==>
      (id == |s.orders| &&
       s.orders == old(s.orders) + [SaleOrder(SafeOrderName, FirstActivePricelist(s.pricelists),
                                              DefaultCurrency(s.pen, s.usd, s.currencies), FirstCustomer(s.partners), 0.0)])
    ensures id != 0 ==> s.orders[id - 1].pricelist != 0 && s.orders[id - 1].currency != 0 && s.orders[id - 1].partner != 0
  {
    var p := FindOrCreateSafePricelist(s);
    if p == 0 {
      return 0;
    }
    var c := DefaultCurrency(s.pen, s.usd, s.currencies);
    DefaultCurrencyExists(s.pen, s.usd, s.currencies);
    var partner := FindOrCreateCustomer(s);
    var order := SaleOrder(SafeOrderName, p, if c != 0 then c else 1, partner, 0.0);
    var created := s.CreateOrder(order);
    id := if created.Some? then created.value else 0;
  }

  /** The price list of the safe order: the first active one, else a new
      one in PEN (or currency 1), whose creation fails (0) exactly when
      there is no currency. */
  method FindOrCreateSafePricelist(s: Store) returns (p: nat)
    requires s.Valid()
    modifies s
    ensures s.Valid() && s.orders == old(s.orders) && s.partners == old(s.partners)
    ensures p == 0 <==> FirstActivePricelist(old(s.pricelists)) == 0 && s.currencies == 0
    ensures p == 0 ==> s.pricelists == old(s.pricelists)
    ensures p != 0 ==> s.pricelists == WithDefaultPricelist(old(s.pricelists), SafePricelistName, s.pen) && p == FirstActivePricelist(s.pricelists)
  {
    p := FirstActivePricelist(s.pricelists);
    if p == 0 {
      var created := s.CreatePricelist(Pricelist(SafePricelistName, true, PenOrOne(s.pen)));
      if created.None? {
        return 0;
      }
      p := created.value;
    }
  }

  /** The partner of the safe order: the first customer, else a new default
      customer. */
  method FindOrCreateCustomer(s: Store) returns (partner: nat)
    requires s.Valid()
    modifies s
    ensures s.Valid() && s.orders == old(s.orders) && s.pricelists == old(s.pricelists)
    ensures FirstCustomer(old(s.partners)) != 0 ==> s.partners == old(s.partners)
    ensures FirstCustomer(old(s.partners)) == 0 ==> s.partners == old(s.partners) + [DefaultCustomer]
    ensures partner == FirstCustomer(s.partners) && partner != 0
  {
    partner := FirstCustomer(s.partners);
    if partner == 0 {
      FirstCustomerAppend(s.partners, DefaultCustomer);
      partner := s.CreatePartner(DefaultCustomer);
    }
  }

  /** `_get_dummy_cart_summary_data`: no order, a zero total, PEN or USD,
      the first price list and the first partner. */
  function DummyCartSummaryData(pricelists: seq<Pricelist>, partners: seq<PartnerRecord>, pen: nat, usd: nat): (d: CartSummaryData)
    ensures d.order == 0 && d.amountTotal == 0.0
    ensures d.currency == PenOrUsd(pen, usd) && d.pricelist == FirstActivePricelist(pricelists)
    ensures d.partner == FirstRecord(|partners|)
  {
    CartSummaryData(0, 0.0, PenOrUsd(pen, usd), FirstActivePricelist(pricelists), FirstRecord(|partners|))
  }

  /** The data shown for order `id`: its price list's currency when it has
      one, else PEN. */
  function SafeDataOf(id: nat, o: SaleOrder, pricelists: seq<Pricelist>, pen: nat): (d: CartSummaryData)
    ensures d.order == id && d.amountTotal == o.amountTotal && d.pricelist == o.pricelist && d.partner == o.partner
    ensures o.pricelist != 0 && PricelistCurrency(pricelists, o.pricelist) != 0 ==> d.currency == PricelistCurrency(pricelists, o.pricelist)
    ensures !(o.pricelist != 0 && PricelistCurrency(pricelists, o.pricelist) != 0) ==> d.currency == pen
  {
    CartSummaryData(id, o.amountTotal,
                    if o.pricelist != 0 && PricelistCurrency(pricelists, o.pricelist) != 0 then PricelistCurrency(pricelists, o.pricelist) else pen,
                    o.pricelist, o.partner)
  }

  /** `_get_cart_summary_safe_data`, given the order in the context (0 for
      none): that order, else a new safe order; the safety pass runs over
      all orders; dummy data when no order can be had. */
  method CartSummarySafeData(s: Store, current: nat) returns (data: CartSummaryData)
    requires s.Valid() && current <= |s.orders|
    modifies s
    ensures s.Valid()
    ensures data.order == 0 <==> current == 0 && s.currencies == 0
    ensures data.order == 0 ==> data == DummyCartSummaryData(s.pricelists, s.partners, s.pen, s.usd)
    ensures data.order != 0 ==>
      data.order == (if current != 0 then current else |s.orders|) && data.order <= |s.orders| &&
      data == SafeDataOf(data.order, s.orders[data.order - 1], s.pricelists, s.pen)
    ensures data.order != 0 && FirstActivePricelist(s.pricelists) != 0 && PenOrUsd(s.pen, s.usd) != 0 && FirstCustomer(s.partners) != 0 ==>
      IsComplete(s.orders[data.order - 1], s.pricelists) && data.currency != 0 && data.pricelist != 0 && data.partner != 0
  {
    var order := current;
    if order == 0 {
      order := CreateSafeOrderForCartSummary(s);
    }
    if order == 0 {
      return DummyCartSummaryData(s.pricelists, s.partners, s.pen, s.usd);
    }
    var _ := EnsureCartSummarySafety(s);
    data := SafeDataOf(order, s.orders[order - 1], s.pricelists, s.pen);
  }

  /** The store-wide repair followed by the safety pass: the store is the
      pass over what the repair leaves, and when there is a currency every
      order then has a price list. */
  method FixThenSecure(s: Store)
    requires s.Valid()
    modifies s
    ensures s.Valid()
    ensures s.partners == old(s.partners)
    ensures PricelistRefsValid(old(s.orders), |old(s.pricelists)|)
    ensures var r := TemplateErrorRepair(old(s.orders), old(s.pricelists), s.pen, s.usd, s.currencies);
      (s.orders, s.pricelists) == SafetyPass(r.0, r.1, s.partners, s.pen, s.usd)
    ensures FirstActivePricelist(old(s.pricelists)) != 0 || s.currencies != 0 ==>
      FirstActivePricelist(s.pricelists) != 0 && forall j :: 0 <= j < |s.orders| ==> s.orders[j].pricelist != 0
  {
    var fixed := FixCartSummaryTemplateError(s);
    if fixed {
      RepairUnfolds(old(s.orders), old(s.pricelists), s.pen, s.usd, s.currencies, s.orders, s.pricelists);
    }
    ghost var orders1 := s.orders;
    var _ := EnsureCartSummarySafety(s);
    assert fixed ==> forall j :: 0 <= j < |s.orders| ==> orders1[j].pricelist != 0 && KeepsSetFields(orders1[j], s.orders[j]);
  }

  /** `_fix_cart_summary_immediately`: the store-wide repair, the safety
      pass, then a new safe order, which is returned (0 when it cannot be
      created, that is when there is no currency at all). */
  method FixCartSummaryImmediately(s: Store) returns (id: nat)
    requires s.Valid()
    modifies s
    ensures s.Valid()
    ensures id == 0 <==> s.currencies == 0
    ensures id != 0 ==>
      (id == |s.orders| && s.orders[id - 1].name == SafeOrderName &&
       s.orders[id - 1].pricelist != 0 && s.orders[id - 1].currency != 0 && s.orders[id - 1].partner != 0)
    ensures s.currencies != 0 ==> forall j :: 0 <= j < |s.orders| ==> s.orders[j].pricelist != 0
    ensures PricelistRefsValid(old(s.orders), |old(s.pricelists)|)
    ensures var r := TemplateErrorRepair(old(s.orders), old(s.pricelists), s.pen, s.usd, s.currencies);
      var pass := SafetyPass(r.0, r.1, old(s.partners), s.pen, s.usd);
      s.pricelists == pass.1 &&
      (id == 0 ==> s.orders == pass.0) &&
      (id != 0 ==> s.orders == pass.0 + [SaleOrder(SafeOrderName, FirstActivePricelist(pass.1),
                                                    DefaultCurrency(s.pen, s.usd, s.currencies), FirstCustomer(s.partners), 0.0)])
    ensures s.partners == old(s.partners) ||
      (FirstCustomer(old(s.partners)) == 0 && s.partners == old(s.partners) + [DefaultCustomer])
  {
    FixThenSecure(s);
    id := AppendSafeOrder(s);
  }

  /** The safe order created once the repair has given every order a price
      list, an active one existing: the price lists stay as they are. */
  method AppendSafeOrder(s: Store) returns (id: nat)
    requires s.Valid()
    requires s.currencies != 0 ==> FirstActivePricelist(s.pricelists) != 0 && forall j :: 0 <= j < |s.orders| ==> s.orders[j].pricelist != 0
    modifies s
    ensures s.Valid()
    ensures id == 0 <==> s.currencies == 0
    ensures s.pricelists == old(s.pricelists)
    ensures id == 0 ==> s.orders == old(s.orders)
    ensures id != 0 ==>
      id == |s.orders| &&
      s.orders == old(s.orders) + [SaleOrder(SafeOrderName, FirstActivePricelist(s.pricelists),
                                             DefaultCurrency(s.pen, s.usd, s.currencies), FirstCustomer(s.partners), 0.0)]
    ensures id != 0 ==> s.orders[id - 1].pricelist != 0 && s.orders[id - 1].currency != 0 && s.orders[id - 1].partner != 0
    ensures s.currencies != 0 ==> forall j :: 0 <= j < |s.orders| ==> s.orders[j].pricelist != 0
    ensures s.partners == old(s.partners) ||
      (FirstCustomer(old(s.partners)) == 0 && s.partners == old(s.partners) + [DefaultCustomer])
  {
    id := CreateSafeOrderForCartSummary(s);
    assert id != 0 ==> s.orders == old(s.orders) + [s.orders[id - 1]];
  }
}
