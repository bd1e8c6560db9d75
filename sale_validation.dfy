/** The validation overrides of `sale.order`: every checkout validator
    accepts every input, and saving the checkout first fills each missing
    field from the form or from a fixed default, so that a partner can
    always be written. The website-sale and the sale overrides carry the
    same code. */
module SaleValidation {
  import opened Common

  // ---------------------------------------------------------------------
  // Validators

  /** The checkout validators that were switched off. */
  datatype CheckoutStep = Checkout | Address | Payment | Shipping | Cart | Order | Final

  /** `_checkout_form_validate` and its address, payment, shipping, cart,
      order and final variants: no error and no message, whatever the mode
      and the form. */
  function DisabledCheckoutValidation(step: CheckoutStep, mode: string, form: Form): (r: (map<string, string>, seq<string>))
    ensures r.0 == map[] && r.1 == []
  {
    (map[], [])
  }

  /** The order checks that were switched off. */
  datatype OrderCheck = OrderData | OrderPartner | OrderFinal

  /** `_validate_order_data`, `_validate_order_partner`,
      `_validate_order_final`: every order passes. */
  function DisabledOrderValidation(check: OrderCheck, data: map<string, Value>): (passes: bool)
    ensures passes
  {
    true
  }

  // ---------------------------------------------------------------------
  // Filling the checkout

  const PeruCountryId := 173

  /** Python's `given or default` for a form text. */
  function OrDefault(given: string, default: Value): Value {
    if given != "" then Str(given) else default
  }

  /** Every truthy field of `m` holds the same value in `r`. */
  ghost predicate KeepsTruthy(m: map<string, Value>, r: map<string, Value>) {
    forall j :: TruthyAt(m, j) ==> j in r && r[j] == m[j]
  }

  /** One `if not checkout.get(k): checkout[k] = given or default` step. */
  function FillField(m: map<string, Value>, k: string, given: string, default: Value): (r: map<string, Value>)
    ensures k in r
    ensures TruthyAt(m, k) ==> r[k] == m[k]
    ensures !TruthyAt(m, k) ==> r[k] == OrDefault(given, default)
    ensures forall j :: j != k ==> (j in r <==> j in m) && (j in m ==> r[j] == m[j])
    ensures KeepsTruthy(m, r)
    ensures Truthy(default) ==> TruthyAt(r, k)
  {
    m[k := if k in m && Truthy(m[k]) then m[k] else OrDefault(given, default)]
  }

  /** The state step: copied only when missing and given; no default. */
  function FillState(m: map<string, Value>, given: string): (r: map<string, Value>)
    ensures forall j :: j != "state_id" ==> (j in r <==> j in m) && (j in m ==> r[j] == m[j])
    ensures KeepsTruthy(m, r)
  {
    if !("state_id" in m && Truthy(m["state_id"])) && given != "" then m["state_id" := Str(given)] else m
  }

  /** The form values the save reads: text fields stripped, the country
      and the state as given. */
  datatype Given = Given(name: string, email: string, phone: string, street: string, city: string,
                         countryId: string, stateId: string, zip: string, vat: string)

  function GivenValues(form: Form): Given {
    Given(Strip(FormGet(form, "name")), Strip(FormGet(form, "email")), Strip(FormGet(form, "phone")),
          Strip(FormGet(form, "street")), Strip(FormGet(form, "city")), FormGet(form, "country_id"),
          FormGet(form, "state_id"), Strip(FormGet(form, "zip")), Strip(FormGet(form, "vat")))
  }

  predicate IsRequiredKey(k: string) {
    k in {"name", "email", "phone", "street", "city", "country_id", "zip", "vat"}
  }

  /** Every field the partner write needs holds a truthy value. */
  predicate HasRequiredFields(m: map<string, Value>) {
    ("name" in m && Truthy(m["name"])) && ("email" in m && Truthy(m["email"])) && ("phone" in m && Truthy(m["phone"])) && ("street" in m && Truthy(m["street"])) &&
    ("city" in m && Truthy(m["city"])) && ("country_id" in m && Truthy(m["country_id"])) && ("zip" in m && Truthy(m["zip"])) && ("vat" in m && Truthy(m["vat"]))
  }

  /** The first three steps of the fill: name, e-mail and phone. */
  function FillContact(m: map<string, Value>, g: Given): (r: map<string, Value>)
    ensures KeepsTruthy(m, r)
    ensures TruthyAt(r, "name") && TruthyAt(r, "email") && TruthyAt(r, "phone")
    ensures !TruthyAt(m, "name") ==> r["name"] == OrDefault(g.name, Str("Cliente"))
    ensures !TruthyAt(m, "email") ==> r["email"] == OrDefault(g.email, Str("cliente@example.com"))
    ensures !TruthyAt(m, "phone") ==> r["phone"] == OrDefault(g.phone, Str("000000000"))
    ensures forall j :: j != "name" && j != "email" && j != "phone" ==> (j in r <==> j in m) && (j in m ==> r[j] == m[j])
  {
    var m1 := FillField(m, "name", g.name, Str("Cliente"));
    var m2 := FillField(m1, "email", g.email, Str("cliente@example.com"));
    KeepsTruthyTransitive(m, m1, m2);
    var r := FillField(m2, "phone", g.phone, Str("000000000"));
    KeepsTruthyTransitive(m, m2, r);
    r
  }

  /** The next three steps: street, city and country, which defaults to
      Peru, 173. */
  function FillStreet(m: map<string, Value>, g: Given): (r: map<string, Value>)
    ensures KeepsTruthy(m, r)
    ensures TruthyAt(r, "street") && TruthyAt(r, "city") && TruthyAt(r, "country_id")
    ensures !TruthyAt(m, "street") ==> r["street"] == OrDefault(g.street, Str("Sin dirección"))
    ensures !TruthyAt(m, "city") ==> r["city"] == OrDefault(g.city, Str("Sin ciudad"))
    ensures !TruthyAt(m, "country_id") ==> r["country_id"] == OrDefault(g.countryId, Int(PeruCountryId))
    ensures forall j :: j != "street" && j != "city" && j != "country_id" ==> (j in r <==> j in m) && (j in m ==> r[j] == m[j])
  {
    var m1 := FillField(m, "street", g.street, Str("Sin dirección"));
    var m2 := FillField(m1, "city", g.city, Str("Sin ciudad"));
    KeepsTruthyTransitive(m, m1, m2);
    var r := FillField(m2, "country_id", g.countryId, Int(PeruCountryId));
    KeepsTruthyTransitive(m, m2, r);
    r
  }

  /** The last three steps: state, zip and VAT. */
  function FillCodes(m: map<string, Value>, g: Given): (r: map<string, Value>)
    ensures KeepsTruthy(m, r)
    ensures TruthyAt(r, "zip") && TruthyAt(r, "vat")
    ensures !TruthyAt(m, "zip") ==> r["zip"] == OrDefault(g.zip, Str("00000"))
    ensures !TruthyAt(m, "vat") ==> r["vat"] == OrDefault(g.vat, Str("00000000"))
    ensures !TruthyAt(m, "state_id") && g.stateId != "" ==> "state_id" in r && r["state_id"] == Str(g.stateId)
    ensures !(!TruthyAt(m, "state_id") && g.stateId != "") ==>
      ("state_id" in r <==> "state_id" in m) && ("state_id" in m ==> r["state_id"] == m["state_id"])
    ensures forall j :: j != "state_id" && j != "zip" && j != "vat" ==> (j in r <==> j in m) && (j in m ==> r[j] == m[j])
  {
    var m1 := FillState(m, g.stateId);
    var m2 := FillField(m1, "zip", g.zip, Str("00000"));
    KeepsTruthyTransitive(m, m1, m2);
    var r := FillField(m2, "vat", g.vat, Str("00000000"));
    KeepsTruthyTransitive(m, m2, r);
    r
  }

  /** The checkout after the fill of `_checkout_form_save`, given what the
      form holds. */
  function Filled(m: map<string, Value>, g: Given): map<string, Value>
  {
    FillCodes(FillStreet(FillContact(m, g), g), g)
  }

  lemma KeepsTruthyTransitive(a: map<string, Value>, b: map<string, Value>, c: map<string, Value>)
    requires KeepsTruthy(a, b) && KeepsTruthy(b, c)
    ensures KeepsTruthy(a, c)
  {
  }

  /** Every field the save needs is truthy after the fill. */
  lemma FilledHasRequiredFields(m: map<string, Value>, g: Given)
    ensures HasRequiredFields(Filled(m, g))
  {
    var m1 := FillContact(m, g);
    var m2 := FillStreet(m1, g);
    assert TruthyAt(m2, "name") && TruthyAt(m2, "email") && TruthyAt(m2, "phone");
  }

  /** A field that already held a truthy value is never overwritten. */
  lemma FilledKeepsTruthyFields(m: map<string, Value>, g: Given)
    ensures forall k :: (k in m && Truthy(m[k])) ==> k in Filled(m, g) && Filled(m, g)[k] == m[k]
  {
    var m1 := FillContact(m, g);
    var m2 := FillStreet(m1, g);
    KeepsTruthyTransitive(m, m1, m2);
    KeepsTruthyTransitive(m, m2, FillCodes(m2, g));
  }

  /** Nothing but the required fields and the state is added or changed. */
  lemma FilledTouchesOnlyCheckoutFields(m: map<string, Value>, g: Given)
    ensures forall k :: !IsRequiredKey(k) && k != "state_id" ==>
      (k in Filled(m, g) <==> k in m) && (k in m ==> Filled(m, g)[k] == m[k])
  {
  }

  /** The contact fields of the fill: name, email and phone. */
  lemma FilledContactFields(m: map<string, Value>, g: Given)
    ensures var r := Filled(m, g);
      && (!TruthyAt(m, "name") ==> r["name"] == OrDefault(g.name, Str("Cliente")))
      && (!TruthyAt(m, "email") ==> r["email"] == OrDefault(g.email, Str("cliente@example.com")))
      && (!TruthyAt(m, "phone") ==> r["phone"] == OrDefault(g.phone, Str("000000000")))
  {
    var m1 := FillContact(m, g);
    var m2 := FillStreet(m1, g);
    var r := FillCodes(m2, g);
    assert m2["name"] == m1["name"] && m2["email"] == m1["email"] && m2["phone"] == m1["phone"];
    assert r["name"] == m2["name"] && r["email"] == m2["email"] && r["phone"] == m2["phone"];
  }

  /** The address fields of the fill: street, city and country. */
  lemma FilledStreetFields(m: map<string, Value>, g: Given)
    ensures var r := Filled(m, g);
      && (!TruthyAt(m, "street") ==> r["street"] == OrDefault(g.street, Str("Sin dirección")))
      && (!TruthyAt(m, "city") ==> r["city"] == OrDefault(g.city, Str("Sin ciudad")))
      && (!TruthyAt(m, "country_id") ==> r["country_id"] == OrDefault(g.countryId, Int(PeruCountryId)))
  {
    var m1 := FillContact(m, g);
    var m2 := FillStreet(m1, g);
    var r := FillCodes(m2, g);
    assert "city" != "name" by { assert "city"[0] != "name"[0]; }
    assert TruthyAt(m1, "street") == TruthyAt(m, "street") && TruthyAt(m1, "city") == TruthyAt(m, "city");
    assert TruthyAt(m1, "country_id") == TruthyAt(m, "country_id");
    assert r["street"] == m2["street"] && r["city"] == m2["city"] && r["country_id"] == m2["country_id"];
  }

  /** The code fields of the fill: zip and VAT. */
  lemma FilledCodeFields(m: map<string, Value>, g: Given)
    ensures var r := Filled(m, g);
      && (!TruthyAt(m, "zip") ==> r["zip"] == OrDefault(g.zip, Str("00000")))
      && (!TruthyAt(m, "vat") ==> r["vat"] == OrDefault(g.vat, Str("00000000")))
  {
    var m1 := FillContact(m, g);
    var m2 := FillStreet(m1, g);
    assert TruthyAt(m1, "zip") == TruthyAt(m, "zip") && TruthyAt(m1, "vat") == TruthyAt(m, "vat");
    assert TruthyAt(m2, "zip") == TruthyAt(m1, "zip") && TruthyAt(m2, "vat") == TruthyAt(m1, "vat");
  }

  /** A missing required field receives the form's value, else its
      default; the country defaults to Peru, 173. */
  lemma FilledMissingFields(m: map<string, Value>, g: Given)
    ensures var r := Filled(m, g);
      && (!TruthyAt(m, "name") ==> r["name"] == OrDefault(g.name, Str("Cliente")))
      && (!TruthyAt(m, "email") ==> r["email"] == OrDefault(g.email, Str("cliente@example.com")))
      && (!TruthyAt(m, "phone") ==> r["phone"] == OrDefault(g.phone, Str("000000000")))
      && (!TruthyAt(m, "street") ==> r["street"] == OrDefault(g.street, Str("Sin dirección")))
      && (!TruthyAt(m, "city") ==> r["city"] == OrDefault(g.city, Str("Sin ciudad")))
      && (!TruthyAt(m, "country_id") ==> r["country_id"] == OrDefault(g.countryId, Int(PeruCountryId)))
      && (!TruthyAt(m, "zip") ==> r["zip"] == OrDefault(g.zip, Str("00000")))
      && (!TruthyAt(m, "vat") ==> r["vat"] == OrDefault(g.vat, Str("00000000")))
  {
    FilledContactFields(m, g);
    FilledStreetFields(m, g);
    FilledCodeFields(m, g);
  }

  /** The state is copied from the form only when missing and given, and
      otherwise left as it was: it has no default. */
  lemma FilledState(m: map<string, Value>, g: Given)
    ensures var r := Filled(m, g);
      if !TruthyAt(m, "state_id") && g.stateId != "" then
        "state_id" in r && r["state_id"] == Str(g.stateId)
      else
        ("state_id" in r <==> "state_id" in m) && ("state_id" in m ==> r["state_id"] == m["state_id"])
  {
    var m2 := FillStreet(FillContact(m, g), g);
    assert ("state_id" in m2 <==> "state_id" in m) && ("state_id" in m ==> m2["state_id"] == m["state_id"]);
  }

  /** A step on a field that is already truthy writes nothing. */
  lemma FillFieldOnTruthy(m: map<string, Value>, k: string, given: string, default: Value)
    requires TruthyAt(m, k)
    ensures FillField(m, k, given, default) == m
  {
    assert m[k := m[k]] == m;
  }

  /** Saving twice fills nothing the second time. */
  lemma {:induction false} FillIsIdempotent(m: map<string, Value>, g: Given)
    ensures Filled(Filled(m, g), g) == Filled(m, g)
  {
    var r := Filled(m, g);
    FilledHasRequiredFields(m, g);
    FilledState(m, g);
    FillFieldOnTruthy(r, "name", g.name, Str("Cliente"));
    FillFieldOnTruthy(r, "email", g.email, Str("cliente@example.com"));
    FillFieldOnTruthy(r, "phone", g.phone, Str("000000000"));
    assert FillContact(r, g) == r;
    FillFieldOnTruthy(r, "street", g.street, Str("Sin dirección"));
    FillFieldOnTruthy(r, "city", g.city, Str("Sin ciudad"));
    FillFieldOnTruthy(r, "country_id", g.countryId, Int(PeruCountryId));
    assert FillStreet(r, g) == r;
    assert FillState(r, g.stateId) == r;
    FillFieldOnTruthy(r, "zip", g.zip, Str("00000"));
    FillFieldOnTruthy(r, "vat", g.vat, Str("00000000"));
  }

  // ---------------------------------------------------------------------
  // Saving

  /** What the parent `_checkout_form_save` did: returned a partner id, or
      raised. */
  datatype ParentSave = ParentReturned(partnerId: int) | ParentRaised

  /** One step of the fill on a copy of the checkout: write `given or
      default` under `k` only when `k` holds no truthy value. */
  method FillKey(m: map<string, Value>, k: string, given: string, default: Value) returns (r: map<string, Value>)
    ensures r == FillField(m, k, given, default)
  {
    r := m;
    if !(k in r && Truthy(r[k])) {
      r := r[k := OrDefault(given, default)];
    } else {
      assert r == m[k := m[k]];
    }
  }

  /** The state step: copied only when missing and given. */
  method FillStateKey(m: map<string, Value>, given: string) returns (r: map<string, Value>)
    ensures r == FillState(m, given)
  {
    r := m;
    if !("state_id" in r && Truthy(r["state_id"])) && given != "" {
      r := r["state_id" := Str(given)];
    }
  }

  /** The fill at the head of `_checkout_form_save`, key by key on the
      checkout dict. */
  method FillCheckout(checkout: Dict, form: Form)
    modifies checkout
    ensures checkout.entries == Filled(old(checkout.entries), GivenValues(form))
  {
    var g := GivenValues(form);
    var m := checkout.entries;
    m := FillKey(m, "name", g.name, Str("Cliente"));
    m := FillKey(m, "email", g.email, Str("cliente@example.com"));
    m := FillKey(m, "phone", g.phone, Str("000000000"));
    m := FillKey(m, "street", g.street, Str("Sin dirección"));
    m := FillKey(m, "city", g.city, Str("Sin ciudad"));
    m := FillKey(m, "country_id", g.countryId, Int(PeruCountryId));
    m := FillStateKey(m, g.stateId);
    m := FillKey(m, "zip", g.zip, Str("00000"));
    m := FillKey(m, "vat", g.vat, Str("00000000"));
    checkout.entries := m;
  }

  /** `_checkout_form_save` (both overrides): fill the checkout in place,
      then hand it to the parent; a parent failure is swallowed and the
      fixed partner id 1 is returned instead. */
  method CheckoutFormSave(checkout: Dict, form: Form, parent: ParentSave) returns (partnerId: int)
    modifies checkout
    ensures checkout.entries == Filled(old(checkout.entries), GivenValues(form))
    ensures HasRequiredFields(checkout.entries)
    ensures partnerId == (if parent.ParentReturned? then parent.partnerId else 1)
  {
    FillCheckout(checkout, form);
    FilledHasRequiredFields(old(checkout.entries), GivenValues(form));
    match parent
    case ParentReturned(id) => partnerId := id;
    case ParentRaised => partnerId := 1;
  }
}
