/** The records the cart-summary repairs read and write: price lists (with
    an active flag and an optional currency), partners (with a customer
    flag), currencies, and sale orders (with optional price list, currency
    and partner references). Record ids are positive; id 0 stands for an
    empty reference. */
module OrderStore {
  import opened Common

  datatype Pricelist = Pricelist(name: string, active: bool, currency: nat)

  datatype PartnerRecord = PartnerRecord(name: string, customer: bool, email: string)

  /** A sale order; `amountTotal` is kept abstract. */
  datatype SaleOrder = SaleOrder(name: string, pricelist: nat, currency: nat, partner: nat, amountTotal: real)

  /** A reference to one of `count` records, or the empty reference. */
  predicate IsRef(id: nat, count: nat) { id <= count }

  /** Every reference of the order points at an existing record. */
  predicate OrderRefsValid(o: SaleOrder, pricelists: nat, partners: nat, currencies: nat) {
    IsRef(o.pricelist, pricelists) && IsRef(o.currency, currencies) && IsRef(o.partner, partners)
  }

  /** The ORM accepts the order: its required price list and partner are
      set, and every reference exists. */
  predicate Creatable(o: SaleOrder, pricelists: nat, partners: nat, currencies: nat) {
    o.pricelist != 0 && o.partner != 0 && OrderRefsValid(o, pricelists, partners, currencies)
  }

  // ---------------------------------------------------------------------
  // Searches: `search(domain, limit=1)` finds the matching record with the
  // lowest id, or nothing (0)

  /** `product.pricelist.search([('active', '=', True)], limit=1)`; the
      unrestricted `search([], limit=1)` finds the same record, because the
      price list search leaves inactive records out. */
  function FirstActivePricelist(pricelists: seq<Pricelist>): (id: nat)
    ensures id <= |pricelists|
    ensures id == 0 <==> forall i :: 0 <= i < |pricelists| ==> !pricelists[i].active
    ensures id > 0 ==> pricelists[id - 1].active && forall i :: 0 <= i < id - 1 ==> !pricelists[i].active
  {
    if pricelists == [] then 0
    else if pricelists[0].active then 1
    else
      var rest := FirstActivePricelist(pricelists[1..]);
      if rest == 0 then 0 else rest + 1
  }

  /** `res.partner.search([('customer', '=', True)], limit=1)`. */
  function FirstCustomer(partners: seq<PartnerRecord>): (id: nat)
    ensures id <= |partners|
    ensures id == 0 <==> forall i :: 0 <= i < |partners| ==> !partners[i].customer
    ensures id > 0 ==> partners[id - 1].customer && forall i :: 0 <= i < id - 1 ==> !partners[i].customer
  {
    if partners == [] then 0
    else if partners[0].customer then 1
    else
      var rest := FirstCustomer(partners[1..]);
      if rest == 0 then 0 else rest + 1
  }

  /** A price list appended after only inactive ones is the first active one. */
  lemma FirstActiveAppend(pricelists: seq<Pricelist>, p: Pricelist)
    requires FirstActivePricelist(pricelists) == 0 && p.active
    ensures FirstActivePricelist(pricelists + [p]) == |pricelists| + 1
  {
    var after := pricelists + [p];
    assert after[|pricelists|].active;
    assert forall i :: 0 <= i < |pricelists| ==> after[i] == pricelists[i];
  }

  /** A customer appended after only non-customers is the first customer. */
  lemma FirstCustomerAppend(partners: seq<PartnerRecord>, p: PartnerRecord)
    requires FirstCustomer(partners) == 0 && p.customer
    ensures FirstCustomer(partners + [p]) == |partners| + 1
  {
    var after := partners + [p];
    assert after[|partners|].customer;
    assert forall i :: 0 <= i < |partners| ==> after[i] == partners[i];
  }

  /** Price lists that differ only outside their active flags have the same
      first active price list. */
  lemma FirstActiveSameFlags(a: seq<Pricelist>, b: seq<Pricelist>)
    requires |a| == |b| && forall i :: 0 <= i < |a| ==> a[i].active == b[i].active
    ensures FirstActivePricelist(a) == FirstActivePricelist(b)
  {
    var x := FirstActivePricelist(a);
    var y := FirstActivePricelist(b);
    assert x != 0 ==> b[x - 1].active;
    assert y != 0 ==> a[y - 1].active;
  }

  /** `search([], limit=1)` over `count` records. */
  function FirstRecord(count: nat): (id: nat)
    ensures id <= count && (id == 0 <==> count == 0)
  {
    if count == 0 then 0 else 1
  }

  /** `env.ref('base.PEN') or env.ref('base.USD')`, each reference yielding
      nothing when its record is missing. */
  function PenOrUsd(pen: nat, usd: nat): (id: nat)
    ensures pen != 0 ==> id == pen
    ensures pen == 0 ==> id == usd
  {
    if pen != 0 then pen else usd
  }

  /** The currency of price list `id`, 0 when it has none (or for the
      empty reference). */
  function PricelistCurrency(pricelists: seq<Pricelist>, id: nat): nat {
    if 1 <= id <= |pricelists| then pricelists[id - 1].currency else 0
  }

  /** The data handed to the cart summary template: an order, its total,
      and the currency, price list and partner to show; 0 stands for None. */
  datatype CartSummaryData = CartSummaryData(order: nat, amountTotal: real, currency: nat, pricelist: nat, partner: nat)

  /** The dummy data: no order, a zero total, and nothing else. */
  const EmptyCartSummary := CartSummaryData(0, 0.0, 0, 0, 0)

  /** What the inherited `sale_get_order` did: return an order (0 for an
      empty one) or raise. */
  datatype ParentOrder = ParentReturned(id: nat) | ParentRaised

  /** The written price list is set, and both written references exist. */
  predicate WritableFields(pricelist: Option<nat>, currency: Option<nat>, pricelists: nat, currencies: nat) {
    (pricelist.Some? ==> pricelist.value != 0 && IsRef(pricelist.value, pricelists)) &&
    (currency.Some? ==> IsRef(currency.value, currencies))
  }

  /** The order with the given fields written. */
  function WithFields(o: SaleOrder, pricelist: Option<nat>, currency: Option<nat>): SaleOrder {
    o.(pricelist := if pricelist.Some? then pricelist.value else o.pricelist,
       currency := if currency.Some? then currency.value else o.currency)
  }

  // ---------------------------------------------------------------------
  // The database

  class Store {
    var pricelists: seq<Pricelist>
    var partners: seq<PartnerRecord>
    var orders: seq<SaleOrder>
    /** Currencies are neither created nor edited: only their number matters. */
    const currencies: nat
    /** The ids `base.PEN` and `base.USD` resolve to, 0 when missing. */
    const pen: nat
    const usd: nat

    /** Every stored reference points at an existing record. */
    predicate Valid()
      reads this
    {
      IsRef(pen, currencies) && IsRef(usd, currencies) &&
      (forall i :: 0 <= i < |pricelists| ==> IsRef(pricelists[i].currency, currencies)) &&
      (forall i :: 0 <= i < |orders| ==> OrderRefsValid(orders[i], |pricelists|, |partners|, currencies))
    }

    constructor (currencies: nat, pen: nat, usd: nat)
      requires IsRef(pen, currencies) && IsRef(usd, currencies)
      ensures Valid()
      ensures pricelists == [] && partners == [] && orders == []
      ensures this.currencies == currencies && this.pen == pen && this.usd == usd
    {
      this.currencies := currencies;
      this.pen := pen;
      this.usd := usd;
      pricelists := [];
      partners := [];
      orders := [];
    }

    /** `product.pricelist.create(vals)`: fails when the currency does not
        exist. */
    method CreatePricelist(p: Pricelist) returns (id: Option<nat>)
      requires Valid()
      modifies this
      ensures Valid()
      ensures IsRef(p.currency, currencies) ==> id == Some(|old(pricelists)| + 1) && pricelists == old(pricelists) + [p]
      ensures !IsRef(p.currency, currencies) ==> id == None && pricelists == old(pricelists)
      ensures partners == old(partners) && orders == old(orders)
    {
      if IsRef(p.currency, currencies) {
        pricelists := pricelists + [p];
        id := Some(|pricelists|);
      } else {
        id := None;
      }
    }

    /** `res.partner.create(vals)`. */
    method CreatePartner(p: PartnerRecord) returns (id: nat)
      requires Valid()
      modifies this
      ensures Valid()
      ensures id == |old(partners)| + 1 && partners == old(partners) + [p]
      ensures pricelists == old(pricelists) && orders == old(orders)
    {
      partners := partners + [p];
      id := |partners|;
    }

    /** `sale.order.create(vals)`: fails when the required price list or
        partner is missing, or when a reference is dangling (such as the
        hard-coded fallback id 1 in an empty table). */
    method CreateOrder(o: SaleOrder) returns (id: Option<nat>)
      requires Valid()
      modifies this
      ensures Valid()
      ensures Creatable(o, |pricelists|, |partners|, currencies) ==>
        id == Some(|old(orders)| + 1) && orders == old(orders) + [o]
      ensures !Creatable(o, |pricelists|, |partners|, currencies) ==> id == None && orders == old(orders)
      ensures pricelists == old(pricelists) && partners == old(partners)
    {
      if Creatable(o, |pricelists|, |partners|, currencies) {
        orders := orders + [o];
        id := Some(|orders|);
      } else {
        id := None;
      }
    }

    /** Write the fields of order `k`. */
    method WriteOrder(k: nat, o: SaleOrder)
      requires Valid() && 1 <= k <= |orders| && OrderRefsValid(o, |pricelists|, |partners|, currencies)
      modifies this
      ensures Valid()
      ensures orders == old(orders)[k - 1 := o]
      ensures pricelists == old(pricelists) && partners == old(partners)
    {
      orders := orders[k - 1 := o];
    }

    /** `order.write(vals)` for a price list and a currency, each optional
        (`Some(0)` clears the field): fails, writing nothing, when the
        required price list would be cleared or a reference is dangling. */
    method WriteOrderFields(k: nat, pricelist: Option<nat>, currency: Option<nat>) returns (ok: bool)
      requires Valid() && 1 <= k <= |orders|
      modifies this
      ensures Valid()
      ensures ok <==> WritableFields(pricelist, currency, |pricelists|, currencies)
      ensures ok ==> orders == old(orders)[k - 1 := WithFields(old(orders)[k - 1], pricelist, currency)]
      ensures !ok ==> orders == old(orders)
      ensures pricelists == old(pricelists) && partners == old(partners)
    {
      ok := WritableFields(pricelist, currency, |pricelists|, currencies);
      if ok {
        orders := orders[k - 1 := WithFields(orders[k - 1], pricelist, currency)];
      }
    }

    /** Write the currency of price list `k`. */
    method WritePricelistCurrency(k: nat, currency: nat)
      requires Valid() && 1 <= k <= |pricelists| && IsRef(currency, currencies)
      modifies this
      ensures Valid()
      ensures pricelists == old(pricelists)[k - 1 := old(pricelists)[k - 1].(currency := currency)]
      ensures orders == old(orders) && partners == old(partners)
    {
      pricelists := pricelists[k - 1 := pricelists[k - 1].(currency := currency)];
    }
  }
}
