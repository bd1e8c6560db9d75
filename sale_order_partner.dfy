/** The sale-order partner guards: a check that an order's partner is a
    real customer (set, not the website's own partner, with a name and an
    e-mail), a `write` that refuses to put the website's partner on an
    order, a `create` that falls back on the session's partner, and the
    confirmation, payment-transaction and onchange hooks built on the check.

    The website's partner is a record id, 0 when there is no current website
    or it has no partner; an order's partner is never 0 when compared with
    it, so 0 never matches. */
module SaleOrderPartnerGuard {
  import opened Common
  import opened OrderStore

  /** The checks of `_check_partner_assignment`, in the order they run. */
  datatype PartnerProblem = NoPartner | WebsitePartner | NoName | NoEmail

  /** The first check an order's partner fails, None when it passes them
      all. */
  function PartnerProblemOf(o: SaleOrder, partners: seq<PartnerRecord>, websitePartner: nat): (r: Option<PartnerProblem>)
    requires o.partner <= |partners|
    ensures r == Some(NoPartner) <==> o.partner == 0
    ensures r == Some(WebsitePartner) <==> o.partner != 0 && o.partner == websitePartner
    ensures r.Some? && r.value.NoName? ==> partners[o.partner - 1].name == ""
    ensures r.Some? && r.value.NoEmail? ==> partners[o.partner - 1].name != "" && partners[o.partner - 1].email == ""
  {
    if o.partner == 0 then Some(NoPartner)
    else if o.partner == websitePartner then Some(WebsitePartner)
    else if partners[o.partner - 1].name == "" then Some(NoName)
    else if partners[o.partner - 1].email == "" then Some(NoEmail)
    else None
  }

  /** `_check_partner_assignment`: the order has a partner that is not the
      website's and has both a name and an e-mail. */
  function CheckPartnerAssignment(o: SaleOrder, partners: seq<PartnerRecord>, websitePartner: nat): (ok: bool)
    requires o.partner <= |partners|
    ensures ok <==> o.partner != 0 && o.partner != websitePartner &&
                    partners[o.partner - 1].name != "" && partners[o.partner - 1].email != ""
  {
    PartnerProblemOf(o, partners, websitePartner).None?
  }

  // ---------------------------------------------------------------------
  // create: the session's partner

  /** The `vals` of `create` once the session's partner has been filled in:
      only when `partner_id` is missing or falsy, and only with a truthy
      session partner. */
  function WithSessionPartner(vals: map<string, Value>, session: Option<Value>): (r: map<string, Value>)
    ensures TruthyAt(vals, "partner_id") ==> r == vals
    ensures TruthyAt(r, "partner_id") <==> TruthyAt(vals, "partner_id") || (session.Some? && Truthy(session.value))
    ensures !TruthyAt(vals, "partner_id") && session.Some? && Truthy(session.value) ==> r["partner_id"] == session.value
    ensures forall k :: k in vals && k != "partner_id" ==> k in r && r[k] == vals[k]
    ensures forall k :: k in r && k != "partner_id" ==> k in vals
  {
    if !TruthyAt(vals, "partner_id") && session.Some? && Truthy(session.value) then
      vals["partner_id" := session.value]
    else vals
  }

  /** `create` fills the caller's `vals` in place before the parent creates
      the order. */
  method FillSessionPartner(vals: Dict, session: Option<Value>)
    modifies vals
    ensures vals.entries == WithSessionPartner(old(vals.entries), session)
  {
    if !(("partner_id" in vals.entries) && Truthy(vals.entries["partner_id"])) {
      if session.Some? && Truthy(session.value) {
        vals.entries := vals.entries["partner_id" := session.value];
      }
    }
  }

  /** Filling twice is filling once. */
  lemma SessionPartnerIsIdempotent(vals: map<string, Value>, session: Option<Value>)
    ensures WithSessionPartner(WithSessionPartner(vals, session), session) == WithSessionPartner(vals, session)
  {
  }

  // ---------------------------------------------------------------------
  // write: the website's partner is dropped

  /** Whether `vals` would put the website's partner on the order. */
  predicate AssignsWebsitePartner(vals: map<string, Value>, websitePartner: nat) {
    "partner_id" in vals && Truthy(vals["partner_id"]) && vals["partner_id"] == Int(websitePartner)
  }

  /** The `vals` of `write` with a truthy `partner_id` equal to the
      website's partner removed; every other key is still written. */
  function WithoutWebsitePartner(vals: map<string, Value>, websitePartner: nat): (r: map<string, Value>)
    ensures !AssignsWebsitePartner(r, websitePartner)
    ensures forall k :: k in vals && k != "partner_id" ==> k in r && r[k] == vals[k]
    ensures forall k :: k in r ==> k in vals && r[k] == vals[k]
    ensures ("partner_id" in vals && "partner_id" !in r) <==> AssignsWebsitePartner(vals, websitePartner)
  {
    if AssignsWebsitePartner(vals, websitePartner) then vals - {"partner_id"} else vals
  }

  /** `write` pops the key from the caller's `vals` before the parent
      writes them. */
  method DropWebsitePartner(vals: Dict, websitePartner: nat)
    modifies vals
    ensures vals.entries == WithoutWebsitePartner(old(vals.entries), websitePartner)
  {
    if "partner_id" in vals.entries && Truthy(vals.entries["partner_id"]) {
      if vals.entries["partner_id"] == Int(websitePartner) {
        vals.entries := vals.entries - {"partner_id"};
      }
    }
  }

  /** A partner that survives the filter and is then written on an order
      never makes the check fail for being the website's partner. */
  lemma WrittenPartnerIsNotWebsitePartner(vals: map<string, Value>, websitePartner: nat, o: SaleOrder, partners: seq<PartnerRecord>)
    requires o.partner <= |partners|
    requires var r := WithoutWebsitePartner(vals, websitePartner);
      "partner_id" in r && r["partner_id"] == Int(o.partner)
    ensures PartnerProblemOf(o, partners, websitePartner) != Some(WebsitePartner)
  {
    var r := WithoutWebsitePartner(vals, websitePartner);
    assert !AssignsWebsitePartner(r, websitePartner);
  }

  // ---------------------------------------------------------------------
  // action_confirm, _create_payment_transaction, the onchange

  const InvalidPartnerMessage := "El partner del pedido no es válido. Por favor, complete la información de envío."

  /** A hook that either raises a ValidationError or goes on to the
      parent's implementation. */
  datatype Guarded = Proceed | Raised(message: string)

  /** `action_confirm`: raises unless the partner check passes. */
  function ActionConfirm(o: SaleOrder, partners: seq<PartnerRecord>, websitePartner: nat): (r: Guarded)
    requires o.partner <= |partners|
    ensures r.Proceed? <==> CheckPartnerAssignment(o, partners, websitePartner)
    ensures r.Raised? ==> r.message == InvalidPartnerMessage
  {
    if CheckPartnerAssignment(o, partners, websitePartner) then Proceed else Raised(InvalidPartnerMessage)
  }

  /** The transaction `vals` once the order's partner is added: only when
      the key is absent (a present but falsy `partner_id` is kept). */
  function WithOrderPartner(vals: map<string, Value>, partner: nat): (r: map<string, Value>)
    ensures "partner_id" in r
    ensures "partner_id" in vals ==> r == vals
    ensures "partner_id" !in vals ==> r["partner_id"] == Int(partner)
    ensures forall k :: k in vals ==> k in r && r[k] == vals[k]
    ensures forall k :: k in r && k != "partner_id" ==> k in vals
  {
    if "partner_id" in vals then vals else vals["partner_id" := Int(partner)]
  }

  /** `_create_payment_transaction(vals)`: raises, leaving `vals` alone,
      unless the partner check passes; otherwise adds the order's partner to
      `vals` in place and goes on to the parent. */
  method CreatePaymentTransaction(o: SaleOrder, partners: seq<PartnerRecord>, websitePartner: nat, vals: Dict) returns (r: Guarded)
    requires o.partner <= |partners|
    modifies vals
    ensures r.Proceed? <==> CheckPartnerAssignment(o, partners, websitePartner)
    ensures r.Raised? ==> r.message == InvalidPartnerMessage && vals.entries == old(vals.entries)
    ensures r.Proceed? ==> vals.entries == WithOrderPartner(old(vals.entries), o.partner)
  {
    if !CheckPartnerAssignment(o, partners, websitePartner) {
      return Raised(InvalidPartnerMessage);
    }
    if "partner_id" !in vals.entries {
      vals.entries := vals.entries["partner_id" := Int(o.partner)];
    }
    return Proceed;
  }

  /** A transaction that proceeds without a caller-chosen partner goes to a
      real customer: not the website's partner, with a name and an e-mail. */
  lemma TransactionPartnerIsValid(o: SaleOrder, partners: seq<PartnerRecord>, websitePartner: nat, vals: map<string, Value>)
    requires o.partner <= |partners|
    requires CheckPartnerAssignment(o, partners, websitePartner)
    requires "partner_id" !in vals
    ensures var r := WithOrderPartner(vals, o.partner);
      r["partner_id"] == Int(o.partner) && o.partner != 0 && o.partner != websitePartner &&
      partners[o.partner - 1].name != "" && partners[o.partner - 1].email != ""
  {
  }

  /** The warning the onchange shows. */
  datatype Warning = Warning(title: string, message: string)

  const WebsitePartnerWarning := Warning("Advertencia",
    "El partner seleccionado es el mismo que el website. Esto puede causar problemas en el proceso de pago.")

  /** `_onchange_partner_id`: the warning when the selected partner is the
      website's, None when the parent's onchange runs instead. */
  function OnchangePartnerId(o: SaleOrder, websitePartner: nat): (r: Option<Warning>)
    ensures r.Some? <==> o.partner != 0 && o.partner == websitePartner
    ensures r.Some? ==> r.value == WebsitePartnerWarning
  {
    if o.partner != 0 && o.partner == websitePartner then Some(WebsitePartnerWarning) else None
  }

  /** The onchange warns exactly about the partners the check rejects for
      being the website's own. */
  lemma OnchangeWarnsOnWebsitePartner(o: SaleOrder, partners: seq<PartnerRecord>, websitePartner: nat)
    requires o.partner <= |partners|
    ensures OnchangePartnerId(o, websitePartner).Some? <==> PartnerProblemOf(o, partners, websitePartner) == Some(WebsitePartner)
    ensures OnchangePartnerId(o, websitePartner).Some? ==> ActionConfirm(o, partners, websitePartner).Raised?
  {
  }
}
