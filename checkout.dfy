/** The website checkout controller extended with Peruvian identity
    documents: the DNI (8 digits) of a person, or the RUC (11 digits) and
    business name ("razón social") of a company that asks for an invoice
    ("factura") rather than a receipt ("boleta"). */
module Checkout {
  import opened Common
  import ResPartner

  // ---------------------------------------------------------------------
  // Modes and outcomes

  datatype ModeKind = New | Edit
  datatype AddressKind = Billing | Shipping
  datatype Mode = Mode(kind: ModeKind, address: AddressKind)

  /** The Python exceptions the controller can let escape. */
  datatype PyError = NameError | UnboundLocalError | ValueError | ValidationError

  /** What the address route decides before rendering: a mode, an HTTP 403,
      or an exception. */
  datatype AddressOutcome = Selected(mode: Mode) | Forbidden | Raised(error: PyError)

  /** `int(kw.get('partner_id', -1))`: the partner the address form is
      about, -1 when none is named; a value `int()` rejects is a ValueError. */
  function RequestedPartnerId(kw: Form): (id: Option<int>)
    ensures "partner_id" !in kw ==> id == Some(-1)
    ensures "partner_id" in kw ==> id == ParseInt(kw["partner_id"])
  {
    if "partner_id" in kw then ParseInt(kw["partner_id"]) else Some(-1)
  }

  /** The mode selection of the address route as the code is written: the
      branch meant to answer 403 calls `Forbidden`, a name the controller
      never imports, so it raises NameError instead. */
  function AddressModeAsWritten(kw: Form, orderPartner: int, websitePartner: int, shippings: set<int>): (r: AddressOutcome)
    ensures r != Forbidden
  {
    match RequestedPartnerId(kw)
    case None => Raised(ValueError)
    case Some(partnerId) =>
      if orderPartner == websitePartner then Selected(Mode(New, Billing))
      else if partnerId > 0 then
        if partnerId == orderPartner then Selected(Mode(Edit, Billing))
        else if partnerId in shippings then Selected(Mode(Edit, Shipping))
        else Raised(NameError)
      else Selected(Mode(New, Shipping))
  }

  /** The mode selection of the address route as intended: a public order
      (its partner is the website's own) creates a billing address; a named
      partner is edited as billing if it is the order's partner and as
      shipping if it belongs to the order's commercial partner; any other
      named partner is forbidden; no named partner creates a shipping
      address. */
  function AddressMode(kw: Form, orderPartner: int, websitePartner: int, shippings: set<int>): (r: AddressOutcome)
    ensures RequestedPartnerId(kw) == None ==> r == Raised(ValueError)
    ensures RequestedPartnerId(kw) != None && orderPartner == websitePartner ==> r == Selected(Mode(New, Billing))
    ensures RequestedPartnerId(kw) != None && orderPartner != websitePartner ==>
      var partnerId := RequestedPartnerId(kw).value;
      (partnerId <= 0 ==> r == Selected(Mode(New, Shipping)))
      && (partnerId > 0 && partnerId == orderPartner ==> r == Selected(Mode(Edit, Billing)))
      && (partnerId > 0 && partnerId != orderPartner && partnerId in shippings ==> r == Selected(Mode(Edit, Shipping)))
      && (partnerId > 0 && partnerId != orderPartner && partnerId !in shippings ==> r == Forbidden)
    ensures r.Selected? && r.mode.kind == Edit ==>
      RequestedPartnerId(kw).value == orderPartner || RequestedPartnerId(kw).value in shippings
  {
    match RequestedPartnerId(kw)
    case None => Raised(ValueError)
    case Some(partnerId) =>
      if orderPartner == websitePartner then Selected(Mode(New, Billing))
      else if partnerId > 0 then
        if partnerId == orderPartner then Selected(Mode(Edit, Billing))
        else if partnerId in shippings then Selected(Mode(Edit, Shipping))
        else Forbidden
      else Selected(Mode(New, Shipping))
  }

  /** The two agree everywhere except that every 403 of the intended
      selection is a NameError as written. */
  lemma AddressModeForbiddenIsNameError(kw: Form, orderPartner: int, websitePartner: int, shippings: set<int>)
    ensures AddressModeAsWritten(kw, orderPartner, websitePartner, shippings)
      == if AddressMode(kw, orderPartner, websitePartner, shippings) == Forbidden then Raised(NameError)
         else AddressMode(kw, orderPartner, websitePartner, shippings)
  {
  }

  /** A logged-in customer (partner 3, whose company owns partners 3 and 4)
      who asks to edit partner 7 gets a NameError rather than a 403. */
  lemma AddressModeCounterexample()
    ensures AddressMode(map["partner_id" := "7"], 3, 1, {3, 4}) == Forbidden
    ensures AddressModeAsWritten(map["partner_id" := "7"], 3, 1, {3, 4}) == Raised(NameError)
  {
    assert AllDigits("7");
    assert Strip("7") == "7" by { DigitsAreStripped("7"); }
  }

  // ---------------------------------------------------------------------
  // Documents merged into the checkout values before saving

  /** An invoice is requested by ticking the checkbox or by choosing
      'factura' in the selector. */
  predicate InvoiceRequested(form: Form) {
    FormGet(form, "invoice_type_checkbox") == "on" || FormGet(form, "invoice_type") == "factura"
  }

  /** `d[k] = v` when `cond` holds. */
  function PutIf(d: map<string, Value>, cond: bool, k: string, v: Value): (r: map<string, Value>)
    ensures cond ==> k in r && r[k] == v
    ensures r.Keys == if cond then d.Keys + {k} else d.Keys
    ensures forall j :: j in d && j != k ==> r[j] == d[j]
    ensures !cond ==> r == d
  {
    if cond then d[k := v] else d
  }

  /** vat set from a truthy ruc, else from a truthy dni, else untouched. */
  function WithPreferredVat(d: map<string, Value>): (r: map<string, Value>)
    ensures r.Keys == if TruthyAt(d, "ruc") || TruthyAt(d, "dni") then d.Keys + {"vat"} else d.Keys
    ensures forall j :: j in d && j != "vat" ==> r[j] == d[j]
    ensures TruthyAt(d, "ruc") ==> r["vat"] == d["ruc"]
    ensures !TruthyAt(d, "ruc") && TruthyAt(d, "dni") ==> r["vat"] == d["dni"]
    ensures !TruthyAt(d, "ruc") && !TruthyAt(d, "dni") ==> r == d
  {
    if TruthyAt(d, "ruc") then d["vat" := d["ruc"]]
    else if TruthyAt(d, "dni") then d["vat" := d["dni"]]
    else d
  }

  lemma DistinctKeys()
    ensures "ruc" != "dni" && "ruc" != "name" && "ruc" != "vat"
    ensures "dni" != "name" && "dni" != "vat" && "name" != "vat"
  {
  }

  /** The keys the merge may write. */
  predicate IsMergedKey(k: string) { k == "ruc" || k == "dni" || k == "name" || k == "vat" }

  /** `(form.get(k) or '').strip()` */
  function FormText(form: Form, k: string): string { Strip(FormGet(form, k)) }

  /** The checkout values after the stripped documents of the form are
      merged in: a non-blank RUC is copied; the DNI is copied only while
      checkout has no "ruc" key at all (a key test, not a truthiness test);
      the business name replaces the name of an invoice; and vat becomes
      the RUC if checkout now holds a truthy one, else the DNI if it holds a
      truthy one, and is otherwise left as it was. */
  function MergeDocuments(checkout: map<string, Value>, dni: string, ruc: string, razonSocial: string, invoice: bool)
    : (r: map<string, Value>)
    // only ruc, dni, name and vat may change, and no key is dropped
    ensures checkout.Keys <= r.Keys <= checkout.Keys + {"ruc", "dni", "name", "vat"}
    ensures forall k :: k in checkout && !IsMergedKey(k) ==> r[k] == checkout[k]
    // RUC
    ensures ruc != "" ==> "ruc" in r && r["ruc"] == Str(ruc)
    ensures ruc == "" ==> ("ruc" in r <==> "ruc" in checkout) && ("ruc" in checkout ==> r["ruc"] == checkout["ruc"])
    // DNI
    ensures dni != "" && "ruc" !in r ==> "dni" in r && r["dni"] == Str(dni)
    ensures dni == "" || "ruc" in r ==>
      ("dni" in r <==> "dni" in checkout) && ("dni" in checkout ==> r["dni"] == checkout["dni"])
    // name
    ensures invoice && razonSocial != "" ==> "name" in r && r["name"] == Str(razonSocial)
    ensures !(invoice && razonSocial != "") ==>
      ("name" in r <==> "name" in checkout) && ("name" in checkout ==> r["name"] == checkout["name"])
    // vat: RUC over DNI
    ensures TruthyAt(r, "ruc") ==> "vat" in r && r["vat"] == r["ruc"]
    ensures !TruthyAt(r, "ruc") && TruthyAt(r, "dni") ==> "vat" in r && r["vat"] == r["dni"]
    ensures !TruthyAt(r, "ruc") && !TruthyAt(r, "dni") ==>
      ("vat" in r <==> "vat" in checkout) && ("vat" in checkout ==> r["vat"] == checkout["vat"])
  {
    DistinctKeys();
    var withRuc := PutIf(checkout, ruc != "", "ruc", Str(ruc));
    var withDni := PutIf(withRuc, dni != "" && "ruc" !in withRuc, "dni", Str(dni));
    var named := PutIf(withDni, invoice && razonSocial != "", "name", Str(razonSocial));
    WithPreferredVat(named)
  }

  /** The checkout values `_checkout_form_save` hands to create/write. */
  function MergedCheckout(checkout: map<string, Value>, form: Form): map<string, Value> {
    MergeDocuments(checkout, FormText(form, "dni"), FormText(form, "ruc"), FormText(form, "razon_social"), InvoiceRequested(form))
  }

  /** The merge updates the caller's checkout dictionary in place. */
  method MergeFormDocuments(checkout: Dict, form: Form)
    modifies checkout
    ensures checkout.entries == MergedCheckout(old(checkout.entries), form)
  {
    var dni := FormText(form, "dni");
    var ruc := FormText(form, "ruc");
    var razonSocial := FormText(form, "razon_social");
    var invoice := FormGet(form, "invoice_type_checkbox") == "on" || FormGet(form, "invoice_type") == "factura";
    var m := checkout.entries;
    if ruc != "" {
      m := m["ruc" := Str(ruc)];
    }
    if dni != "" && "ruc" !in m {
      m := m["dni" := Str(dni)];
    }
    if invoice && razonSocial != "" {
      m := m["name" := Str(razonSocial)];
    }
    ghost var named := m;
    if TruthyAt(m, "ruc") {
      m := m["vat" := m["ruc"]];
    } else if TruthyAt(m, "dni") {
      m := m["vat" := m["dni"]];
    }
    assert m == WithPreferredVat(named);
    assert named == PutIf(PutIf(PutIf(checkout.entries, ruc != "", "ruc", Str(ruc)), dni != "" && !(ruc != "" || "ruc" in checkout.entries), "dni", Str(dni)),
                          invoice && razonSocial != "", "name", Str(razonSocial));
    assert invoice == InvoiceRequested(form);
    checkout.entries := m;
  }

  // ---------------------------------------------------------------------
  // Saving the partner

  /** The generated address of a new partner who gave no email. */
  function PlaceholderEmail(now: nat): (email: string)
    ensures StartsWith(email, "customer_") && email != ""
  {
    "customer_" + NatToStr(now) + "@temp.local"
  }

  /** The values a new partner is created with: an email and a name are
      always present, the ones given are kept. */
  function NewPartnerValues(checkout: map<string, Value>, now: nat): (r: map<string, Value>)
    ensures TruthyAt(r, "email") && TruthyAt(r, "name")
    ensures TruthyAt(checkout, "email") ==> r["email"] == checkout["email"]
    ensures !TruthyAt(checkout, "email") ==> r["email"] == Str(PlaceholderEmail(now))
    ensures TruthyAt(checkout, "name") ==> r["name"] == checkout["name"]
    ensures !TruthyAt(checkout, "name") ==> r["name"] == Str("Cliente")
    ensures forall k :: k in checkout && k != "email" && k != "name" ==> k in r && r[k] == checkout[k]
    ensures r.Keys == checkout.Keys + {"email", "name"}
  {
    var withEmail := if TruthyAt(checkout, "email") then checkout else checkout["email" := Str(PlaceholderEmail(now))];
    if TruthyAt(withEmail, "name") then withEmail else withEmail["name" := Str("Cliente")]
  }

  /** Who may be edited: the order's partner or a partner of its company. */
  datatype EditAccess = EditAllowed | EditForbidden | EditRaised(error: PyError)

  /** The double check before an edit, as written: its 403 is the same
      undefined `Forbidden` and raises NameError. */
  function EditAccessAsWritten(partnerId: int, orderPartner: int, shippings: set<int>): (r: EditAccess)
    ensures r != EditForbidden
  {
    if partnerId !in shippings && partnerId != orderPartner then EditRaised(NameError) else EditAllowed
  }

  /** The double check before an edit, as intended. */
  function EditAccessCheck(partnerId: int, orderPartner: int, shippings: set<int>): (r: EditAccess)
    ensures r == EditAllowed <==> partnerId in shippings || partnerId == orderPartner
    ensures r != EditAllowed ==> r == EditForbidden
  {
    if partnerId !in shippings && partnerId != orderPartner then EditForbidden else EditAllowed
  }

  /** The two agree everywhere except that the intended 403 is a NameError
      as written. */
  lemma EditAccessForbiddenIsNameError(partnerId: int, orderPartner: int, shippings: set<int>)
    ensures EditAccessAsWritten(partnerId, orderPartner, shippings)
      == if EditAccessCheck(partnerId, orderPartner, shippings) == EditForbidden then EditRaised(NameError)
         else EditAccessCheck(partnerId, orderPartner, shippings)
  {
  }

  /** A company's customer (partner 3, owning 3 and 4) posting an edit of
      partner 7 gets a NameError rather than a 403. */
  lemma EditAccessCounterexample()
    ensures EditAccessCheck(7, 3, {3, 4}) == EditForbidden
    ensures EditAccessAsWritten(7, 3, {3, 4}) == EditRaised(NameError)
  {
  }

  /** What the ORM and the clock answer while a partner is saved. */
  datatype SaveEnv = SaveEnv(
    now: nat,             // int(time.time())
    websitePartner: int,  // the website's public partner
    createdId: int,       // id of the partner `create` returns
    recreatedId: int,     // id of the partner created again after a clash
    orderPartner: int,    // partner of the current order
    shippings: set<int>)  // partners of the order's commercial partner

  datatype SaveOutcome = Created(id: int) | Updated(id: int) | SaveForbidden | SaveRaised(error: PyError)

  /** The address a partner is re-created with when the created one turned
      out to be the website's public partner. */
  function UniqueEmail(id: int, now: nat): (email: string)
    ensures StartsWith(email, "unique_")
    ensures email != PlaceholderEmail(now)
  {
    var email := "unique_" + IntToStr(id) + "_" + NatToStr(now) + "@temp.local";
    assert email[0] != PlaceholderEmail(now)[0];
    email
  }

  /** The 'new' branch of `_checkout_form_save` as intended, the clock being
      available on every path: the values with an e-mail and a name are
      created; should the created partner be the website's public one, it
      is created again under a unique address distinct from the generated
      one; a final id of 0 is a ValidationError. Only a ValidationError can
      escape, and any partner created is a real one. */
  function NewPartnerSave(merged: map<string, Value>, env: SaveEnv): (r: (map<string, Value>, SaveOutcome))
    ensures TruthyAt(r.0, "email") && TruthyAt(r.0, "name")
    ensures r.1.SaveRaised? ==> r.1 == SaveRaised(ValidationError)
    ensures r.1.Created? || r.1.SaveRaised?
    ensures r.1.Created? ==> r.1.id != 0
    ensures env.createdId != env.websitePartner ==>
      r.0 == NewPartnerValues(merged, env.now) && (r.1.Created? <==> env.createdId != 0) && (r.1.Created? ==> r.1.id == env.createdId)
    ensures env.createdId == env.websitePartner ==>
      r.0.Keys == NewPartnerValues(merged, env.now).Keys &&
      (forall k :: k in r.0 && k != "email" ==> r.0[k] == NewPartnerValues(merged, env.now)[k]) &&
      r.0["email"] == Str(UniqueEmail(env.createdId, env.now)) &&
      (r.1.Created? <==> env.recreatedId != 0) && (r.1.Created? ==> r.1.id == env.recreatedId)
  {
    var values := NewPartnerValues(merged, env.now);
    if env.createdId == env.websitePartner then
      (values["email" := Str(UniqueEmail(env.createdId, env.now))],
       if env.recreatedId == 0 then SaveRaised(ValidationError) else Created(env.recreatedId))
    else
      (values, if env.createdId == 0 then SaveRaised(ValidationError) else Created(env.createdId))
  }

  /** The 'new' branch as written: `time` is imported only where an e-mail
      is generated, so the clash with the public partner raises
      UnboundLocalError whenever the customer gave an e-mail, and agrees
      with the intended branch on every other input. */
  function NewPartnerSaveAsWritten(merged: map<string, Value>, env: SaveEnv): (r: (map<string, Value>, SaveOutcome))
    ensures r.1 == SaveRaised(UnboundLocalError) <==> env.createdId == env.websitePartner && TruthyAt(merged, "email")
    ensures r.1 == SaveRaised(UnboundLocalError) ==> r.0 == NewPartnerValues(merged, env.now)
  {
    if env.createdId == env.websitePartner && TruthyAt(merged, "email") then
      (NewPartnerValues(merged, env.now), SaveRaised(UnboundLocalError))
    else NewPartnerSave(merged, env)
  }

  /** On every input the two agree except on the clash with a given e-mail. */
  lemma NewPartnerSaveUnboundOnlyOnClash(merged: map<string, Value>, env: SaveEnv)
    ensures !(env.createdId == env.websitePartner && TruthyAt(merged, "email")) ==>
      NewPartnerSaveAsWritten(merged, env) == NewPartnerSave(merged, env)
    ensures env.createdId == env.websitePartner && TruthyAt(merged, "email") ==>
      NewPartnerSaveAsWritten(merged, env).1 == SaveRaised(UnboundLocalError) && NewPartnerSave(merged, env).1 != SaveRaised(UnboundLocalError)
  {
  }

  /** A customer who typed an e-mail, where `create` hands back the public
      partner 4 and the second `create` partner 9: the code as written
      raises UnboundLocalError, the intended branch creates partner 9. */
  lemma NewPartnerSaveCounterexample()
    ensures NewPartnerSaveAsWritten(map["email" := Str("ana@correo.pe")], SaveEnv(0, 4, 4, 9, 3, {})).1 == SaveRaised(UnboundLocalError)
    ensures NewPartnerSave(map["email" := Str("ana@correo.pe")], SaveEnv(0, 4, 4, 9, 3, {})).1 == Created(9)
  {
  }

  /** The partner id `_checkout_form_save` reads in edit mode:
      `int(all_values.get('partner_id', 0))`. */
  function EditedPartnerId(form: Form): Option<int> {
    if "partner_id" in form then ParseInt(form["partner_id"]) else Some(0)
  }

  /** The 'edit' branch of `_checkout_form_save` as intended: a partner id
      `int()` rejects is a ValueError, the id 0 is the final
      ValidationError, a partner outside the order's company is a 403, and
      any other partner is updated. */
  function EditPartnerSave(form: Form, env: SaveEnv): (r: SaveOutcome)
    ensures r == SaveRaised(ValueError) <==> EditedPartnerId(form).None?
    ensures r == SaveRaised(ValidationError) <==> EditedPartnerId(form) == Some(0)
    ensures r == SaveForbidden <==>
      EditedPartnerId(form).Some? && EditedPartnerId(form).value != 0 &&
      EditedPartnerId(form).value !in env.shippings && EditedPartnerId(form).value != env.orderPartner
    ensures r.Updated? <==>
      EditedPartnerId(form).Some? && EditedPartnerId(form).value != 0 &&
      (EditedPartnerId(form).value in env.shippings || EditedPartnerId(form).value == env.orderPartner)
    ensures r.Updated? ==> r.id == EditedPartnerId(form).value
  {
    match EditedPartnerId(form)
    case None => SaveRaised(ValueError)
    case Some(id) =>
      if id == 0 then SaveRaised(ValidationError)
      else if EditAccessCheck(id, env.orderPartner, env.shippings) == EditForbidden then SaveForbidden
      else Updated(id)
  }

  /** The 'edit' branch as written. A partner id `int()` rejects raises
      ValueError before `partner_id` is bound, and the handler's log line
      then reads the unbound local, so UnboundLocalError escapes; the 403 is
      the NameError of the undefined `Forbidden`, re-raised by the handler.
      Neither a ValueError nor a 403 can come out. */
  function EditPartnerSaveAsWritten(form: Form, env: SaveEnv): (r: SaveOutcome)
    ensures r != SaveForbidden && r != SaveRaised(ValueError)
    ensures r == SaveRaised(UnboundLocalError) <==> EditedPartnerId(form).None?
  {
    match EditedPartnerId(form)
    case None => SaveRaised(UnboundLocalError)
    case Some(id) =>
      if id == 0 then SaveRaised(ValidationError)
      else match EditAccessAsWritten(id, env.orderPartner, env.shippings)
        case EditRaised(e) => SaveRaised(e)
        case _ => Updated(id)
  }

  /** On every input the written branch is the intended one with its two
      error outcomes renamed: the ValueError becomes UnboundLocalError and
      the 403 becomes NameError. */
  lemma EditPartnerSaveErrorsRenamed(form: Form, env: SaveEnv)
    ensures EditPartnerSaveAsWritten(form, env) ==
      match EditPartnerSave(form, env)
      case SaveRaised(ValueError) => SaveRaised(UnboundLocalError)
      case SaveForbidden => SaveRaised(NameError)
      case other => other
  {
    match EditedPartnerId(form)
    case None =>
    case Some(id) =>
      if id != 0 {
        EditAccessForbiddenIsNameError(id, env.orderPartner, env.shippings);
      }
  }

  /** An edit posted with an empty `partner_id`: the intended ValueError is
      an UnboundLocalError as written. */
  lemma EditPartnerSaveCounterexample()
    ensures EditPartnerSave(map["partner_id" := ""], SaveEnv(0, 4, 5, 6, 3, {3})) == SaveRaised(ValueError)
    ensures EditPartnerSaveAsWritten(map["partner_id" := ""], SaveEnv(0, 4, 5, 6, 3, {3})) == SaveRaised(UnboundLocalError)
  {
    assert Strip("") == "";
  }

  /** `_checkout_form_save`: merge the documents, then create a partner in
      'new' mode or update the named one in 'edit' mode; a final id of 0 is
      a ValidationError. Both branches are the ones written: the 'new'
      branch with its UnboundLocalError (see NewPartnerSaveAsWritten), the
      'edit' branch with its UnboundLocalError and NameError (see
      EditPartnerSaveAsWritten). */
  method CheckoutFormSave(mode: Mode, checkout: Dict, form: Form, env: SaveEnv) returns (outcome: SaveOutcome)
    modifies checkout
    ensures mode.kind == Edit ==> checkout.entries == MergedCheckout(old(checkout.entries), form)
    ensures mode.kind == Edit ==> outcome == EditPartnerSaveAsWritten(form, env)
    ensures mode.kind == New ==>
      (checkout.entries, outcome) == NewPartnerSaveAsWritten(MergedCheckout(old(checkout.entries), form), env)
  {
    MergeFormDocuments(checkout, form);
    if mode.kind == New {
      var clockImported := false;
      if !TruthyAt(checkout.entries, "email") {
        clockImported := true;
        checkout.entries := checkout.entries["email" := Str(PlaceholderEmail(env.now))];
      }
      if !TruthyAt(checkout.entries, "name") {
        checkout.entries := checkout.entries["name" := Str("Cliente")];
      }
      var partnerId := env.createdId;
      if partnerId == env.websitePartner {
        if !clockImported {
          return SaveRaised(UnboundLocalError);
        }
        checkout.entries := checkout.entries["email" := Str(UniqueEmail(partnerId, env.now))];
        partnerId := env.recreatedId;
      }
      if partnerId == 0 {
        return SaveRaised(ValidationError);
      }
      return Created(partnerId);
    } else {
      match EditedPartnerId(form) {
        case None =>
          // `int()` raised before `partner_id` was bound; the handler's log
          // line reads it
          return SaveRaised(UnboundLocalError);
        case Some(partnerId) =>
          if partnerId != 0 {
            var access := EditAccessAsWritten(partnerId, env.orderPartner, env.shippings);
            if access.EditRaised? {
              return SaveRaised(access.error);
            }
            return Updated(partnerId);
          }
          return SaveRaised(ValidationError);
      }
    }
  }

  // ---------------------------------------------------------------------
  // Preprocessing of the posted values

  /** `values_preprocess`: on top of the parent's values, the receipt type
      is always set; the DNI is copied (stripped) whenever it was posted
      non-empty; the RUC and the business name (as the partner's name) are
      copied only for an invoice. */
  method ValuesPreprocess(parentValues: map<string, Value>, values: Form) returns (newValues: map<string, Value>)
    ensures "invoice_type" in newValues && newValues["invoice_type"] == Str(if InvoiceRequested(values) then "factura" else "boleta")
    ensures FormGet(values, "dni") != "" ==> "dni" in newValues && newValues["dni"] == Str(Strip(values["dni"]))
    ensures InvoiceRequested(values) && FormGet(values, "ruc") != "" ==> "ruc" in newValues && newValues["ruc"] == Str(Strip(values["ruc"]))
    ensures InvoiceRequested(values) && FormGet(values, "razon_social") != "" ==>
      "name" in newValues && newValues["name"] == Str(Strip(values["razon_social"]))
    // everything else is the parent's
    ensures parentValues.Keys <= newValues.Keys <= parentValues.Keys + {"invoice_type", "dni", "ruc", "name"}
    ensures forall k :: k in parentValues && k !in {"invoice_type", "dni", "ruc", "name"} ==> newValues[k] == parentValues[k]
    ensures FormGet(values, "dni") == "" ==>
      ("dni" in newValues <==> "dni" in parentValues) && ("dni" in parentValues ==> newValues["dni"] == parentValues["dni"])
    ensures !(InvoiceRequested(values) && FormGet(values, "ruc") != "") ==>
      ("ruc" in newValues <==> "ruc" in parentValues) && ("ruc" in parentValues ==> newValues["ruc"] == parentValues["ruc"])
    ensures !(InvoiceRequested(values) && FormGet(values, "razon_social") != "") ==>
      ("name" in newValues <==> "name" in parentValues) && ("name" in parentValues ==> newValues["name"] == parentValues["name"])
  {
    newValues := parentValues;
    var invoice := FormGet(values, "invoice_type_checkbox") == "on" || FormGet(values, "invoice_type") == "factura";
    if invoice {
      newValues := newValues["invoice_type" := Str("factura")];
    } else {
      newValues := newValues["invoice_type" := Str("boleta")];
    }
    if "dni" in values && values["dni"] != "" {
      newValues := newValues["dni" := Str(Strip(values["dni"]))];
    }
    if invoice {
      if "ruc" in values && values["ruc"] != "" {
        newValues := newValues["ruc" := Str(Strip(values["ruc"]))];
      }
      if "razon_social" in values && values["razon_social"] != "" {
        newValues := newValues["name" := Str(Strip(values["razon_social"]))];
      }
    }
  }

  // ---------------------------------------------------------------------
  // Validation of a pickup checkout

  datatype Validation = Checked(errors: map<string, string>, messages: seq<string>) | Delegated

  /** The message appended for each error of the pickup form. */
  function ErrorMessage(field: string, kind: string): string {
    if field == "ruc" && kind == "missing" then "RUC es requerido para factura"
    else if field == "ruc" then "RUC debe tener exactamente 11 dígitos"
    else if field == "razon_social" then "Razón Social es requerida para factura"
    else "DNI debe tener exactamente 8 dígitos"
  }

  /** One message per error, in the order the fields are checked. */
  function MessagesFor(errors: map<string, string>): seq<string> {
    (if "ruc" in errors then [ErrorMessage("ruc", errors["ruc"])] else [])
    + (if "razon_social" in errors then [ErrorMessage("razon_social", errors["razon_social"])] else [])
    + (if "dni" in errors then [ErrorMessage("dni", errors["dni"])] else [])
  }

  /** `checkout_form_validate`: a pickup checkout checks only the identity
      documents (an invoice, which here only the ticked checkbox requests,
      needs an 11-digit RUC and a business name; otherwise a DNI, if given,
      must be 8 digits); any other checkout is the parent's business. */
  method CheckoutFormValidate(form: Form) returns (v: Validation)
    ensures v == Delegated <==> FormGet(form, "shipping_option") != "pickup"
    ensures v.Checked? ==> v.messages == MessagesFor(v.errors) && |v.messages| == |v.errors|
    ensures v.Checked? && FormGet(form, "invoice_type_checkbox") == "on" ==>
      var ruc := Strip(FormGet(form, "ruc"));
      "dni" !in v.errors
      && (ruc == "" ==> "ruc" in v.errors && v.errors["ruc"] == "missing")
      && (ruc != "" && !ResPartner.IsRucText(ruc) ==> "ruc" in v.errors && v.errors["ruc"] == "invalid")
      && ("ruc" !in v.errors <==> ResPartner.IsRucText(ruc))
      && ("razon_social" in v.errors <==> Strip(FormGet(form, "razon_social")) == "")
      && ("razon_social" in v.errors ==> v.errors["razon_social"] == "missing")
    ensures v.Checked? && FormGet(form, "invoice_type_checkbox") != "on" ==>
      var dni := Strip(FormGet(form, "dni"));
      "ruc" !in v.errors && "razon_social" !in v.errors
      && ("dni" in v.errors <==> dni != "" && !ResPartner.IsDniText(dni))
      && ("dni" in v.errors ==> v.errors["dni"] == "invalid")
  {
    if FormGet(form, "shipping_option") != "pickup" {
      return Delegated;
    }
    var errors: map<string, string> := map[];
    var messages: seq<string> := [];
    var dni := Strip(FormGet(form, "dni"));
    var ruc := Strip(FormGet(form, "ruc"));
    var razonSocial := Strip(FormGet(form, "razon_social"));
    if FormGet(form, "invoice_type_checkbox") == "on" {
      if ruc == "" {
        errors := errors["ruc" := "missing"];
        messages := messages + ["RUC es requerido para factura"];
      } else if |ruc| != 11 || !AllDigits(ruc) {
        errors := errors["ruc" := "invalid"];
        messages := messages + ["RUC debe tener exactamente 11 dígitos"];
      }
      if razonSocial == "" {
        errors := errors["razon_social" := "missing"];
        messages := messages + ["Razón Social es requerida para factura"];
      }
    } else {
      if dni != "" && (|dni| != 8 || !AllDigits(dni)) {
        errors := errors["dni" := "invalid"];
        messages := messages + ["DNI debe tener exactamente 8 dígitos"];
      }
    }
    return Checked(errors, messages);
  }
}
