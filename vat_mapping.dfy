/** The stand-alone VAT mapping script: a simulation of how the documents
    of a partner (RUC, custom RUC, DNI) are promoted to its `vat`, run over
    a fixed table of cases with expected results, and a simulation of the
    checkout preprocessing for a receipt and an invoice. */
module VatMapping {
  import opened Common
  import ResPartner
  import Checkout

  /** `vals[k]` holds a truthy value whose stripped text is not blank. */
  predicate HasDocument(vals: map<string, Value>, k: string) {
    k in vals && Truthy(vals[k]) && Strip(ValueToStr(vals[k])) != ""
  }

  function DocumentText(vals: map<string, Value>, k: string): string
    requires k in vals
  {
    Strip(ValueToStr(vals[k]))
  }

  /** The value promoted to vat: the first of ruc, ruc_custom and dni that
      holds a non-blank document, stripped; none when all three are blank. */
  function VatSource(vals: map<string, Value>): (vat: Option<string>)
    ensures HasDocument(vals, "ruc") ==> vat == Some(DocumentText(vals, "ruc"))
    ensures !HasDocument(vals, "ruc") && HasDocument(vals, "ruc_custom") ==> vat == Some(DocumentText(vals, "ruc_custom"))
    ensures !HasDocument(vals, "ruc") && !HasDocument(vals, "ruc_custom") && HasDocument(vals, "dni") ==>
      vat == Some(DocumentText(vals, "dni"))
    ensures vat == None <==> !HasDocument(vals, "ruc") && !HasDocument(vals, "ruc_custom") && !HasDocument(vals, "dni")
    ensures vat.Some? ==> vat.value != ""
  {
    if HasDocument(vals, "ruc") then Some(DocumentText(vals, "ruc"))
    else if HasDocument(vals, "ruc_custom") then Some(DocumentText(vals, "ruc_custom"))
    else if HasDocument(vals, "dni") then Some(DocumentText(vals, "dni"))
    else None
  }

  /** The simulated `_update_vat_field` on a copy of the case data: only
      "vat" may be added or replaced, and only when a document was found. */
  method UpdateVatField(data: map<string, Value>) returns (vals: map<string, Value>)
    ensures VatSource(data).Some? ==> "vat" in vals && vals["vat"] == Str(VatSource(data).value)
    ensures VatSource(data) == None ==> vals == data
    ensures vals.Keys <= data.Keys + {"vat"}
    ensures forall k :: k in data && k != "vat" ==> k in vals && vals[k] == data[k]
  {
    vals := data;
    var vatValue: Option<string> := None;
    if "ruc" in vals && Truthy(vals["ruc"]) && Strip(ValueToStr(vals["ruc"])) != "" {
      vatValue := Some(Strip(ValueToStr(vals["ruc"])));
    } else if "ruc_custom" in vals && Truthy(vals["ruc_custom"]) && Strip(ValueToStr(vals["ruc_custom"])) != "" {
      vatValue := Some(Strip(ValueToStr(vals["ruc_custom"])));
    } else if "dni" in vals && Truthy(vals["dni"]) && Strip(ValueToStr(vals["dni"])) != "" {
      vatValue := Some(Strip(ValueToStr(vals["dni"])));
    }
    if vatValue.Some? && vatValue.value != "" {
      vals := vals["vat" := Str(vatValue.value)];
    }
  }

  // ---------------------------------------------------------------------
  // The table of cases

  datatype VatCase = VatCase(title: string, data: map<string, Value>, expectedVat: string)

  function VatCases(): (cases: seq<VatCase>)
    ensures |cases| == 5
  {
    [ VatCase("Prueba 1: Solo DNI",
        map["name" := Str("Juan Pérez"), "dni" := Str("12345678"), "email" := Str("juan@test.com")],
        "12345678"),
      VatCase("Prueba 2: Solo RUC",
        map["name" := Str("Empresa SAC"), "ruc" := Str("20123456789"), "email" := Str("empresa@test.com")],
        "20123456789"),
      VatCase("Prueba 3: DNI y RUC (debe priorizar RUC)",
        map["name" := Str("Cliente Mixto"), "dni" := Str("87654321"), "ruc" := Str("20987654321"),
            "email" := Str("mixto@test.com")],
        "20987654321"),
      VatCase("Prueba 4: Solo RUC Custom",
        map["name" := Str("Empresa Custom"), "ruc_custom" := Str("20555666777"), "email" := Str("custom@test.com")],
        "20555666777"),
      VatCase("Prueba 5: DNI, RUC y RUC Custom (debe priorizar RUC)",
        map["name" := Str("Cliente Completo"), "dni" := Str("11111111"), "ruc" := Str("20111111111"),
            "ruc_custom" := Str("20222222222"), "email" := Str("completo@test.com")],
        "20111111111") ]
  }

  /** A document made of digits is promoted as it is. */
  lemma DigitDocument(vals: map<string, Value>, k: string, text: string)
    requires k in vals && vals[k] == Str(text) && AllDigits(text)
    ensures HasDocument(vals, k) && DocumentText(vals, k) == text
  {
    DigitsAreStripped(text);
  }

  /** Every case of the table meets its expectation: a lone DNI, RUC or
      custom RUC is promoted, and a RUC beats both the DNI and the custom
      RUC. */
  lemma {:induction false} VatCasesMeetExpectations(i: nat)
    requires i < |VatCases()|
    ensures VatSource(VatCases()[i].data) == Some(VatCases()[i].expectedVat)
  {
    var c := VatCases()[i];
    if i == 0 {
      DigitDocument(c.data, "dni", "12345678");
    } else if i == 1 {
      DigitDocument(c.data, "ruc", "20123456789");
    } else if i == 2 {
      DigitDocument(c.data, "ruc", "20987654321");
    } else if i == 3 {
      DigitDocument(c.data, "ruc_custom", "20555666777");
    } else {
      DigitDocument(c.data, "ruc", "20111111111");
    }
  }

  /** `test_vat_mapping`: run every case and record whether the vat it
      ends with is the expected one. */
  method RunVatMapping() returns (passed: seq<bool>)
    ensures |passed| == |VatCases()|
    ensures forall i :: 0 <= i < |passed| ==> passed[i]
  {
    var cases := VatCases();
    passed := [];
    var i := 0;
    while i < |cases|
      invariant 0 <= i <= |cases|
      invariant |passed| == i
      invariant forall j :: 0 <= j < i ==> passed[j]
    {
      var vals := UpdateVatField(cases[i].data);
      VatCasesMeetExpectations(i);
      var actual: Option<Value> := if "vat" in vals then Some(vals["vat"]) else None;
      passed := passed + [actual == Some(Str(cases[i].expectedVat))];
      i := i + 1;
    }
  }

  /** The partner model's own create/write mapping disagrees with this
      table wherever a DNI of eight digits is given: create/write store it
      prefixed with "10", whereas the table promotes the DNI itself when no
      RUC is given (as in case 1) and the RUC otherwise (as in case 3). */
  lemma PartnerCreateDisagreesOnDni(vals: map<string, Value>, dni: string)
    requires "dni" in vals && vals["dni"] == Str(dni) && ResPartner.IsDniText(dni)
    ensures var r := ResPartner.RewriteVals(vals);
      "vat" in r && r["vat"] == Str("10" + dni)
    ensures !HasDocument(vals, "ruc") && !HasDocument(vals, "ruc_custom") ==>
      VatSource(vals) == Some(dni) && "10" + dni != dni
  {
    DigitsAreStripped(dni);
    assert ResPartner.StrippedText(vals["dni"]) == dni;
    assert |"10" + dni| != |dni|;
  }

  /** Case 3 of the table in particular: the script promotes the RUC,
      while create/write store "10" + DNI. */
  lemma PartnerCreateDisagreesWithCase3()
    ensures VatSource(VatCases()[2].data) == Some("20987654321")
    ensures var r := ResPartner.RewriteVals(VatCases()[2].data);
      "vat" in r && r["vat"] == Str("1087654321")
  {
    VatCasesMeetExpectations(2);
    var data := VatCases()[2].data;
    assert data["dni"] == Str("87654321");
    assert AllDigits("87654321");
    DigitsAreStripped("87654321");
    assert ResPartner.StrippedText(data["dni"]) == "87654321";
    assert "10" + "87654321" == "1087654321";
    assert ResPartner.DerivedVat(data) == Some("1087654321");
    assert "vat" in ResPartner.RewriteVals(data);
  }

  /** The checkout merge agrees with this table on a RUC made of digits:
      both make that RUC the vat, whatever else the checkout holds. */
  lemma CheckoutMergeAgreesOnRuc(checkout: map<string, Value>, dni: string, ruc: string, razonSocial: string, invoice: bool)
    requires ruc != "" && AllDigits(ruc)
    ensures var r := Checkout.MergeDocuments(checkout, dni, ruc, razonSocial, invoice);
      "vat" in r && r["vat"] == Str(ruc) && VatSource(r) == Some(ruc)
  {
    var r := Checkout.MergeDocuments(checkout, dni, ruc, razonSocial, invoice);
    DigitDocument(r, "ruc", ruc);
  }

  // ---------------------------------------------------------------------
  // Checkout scenarios

  /** The simulated preprocessing of `test_checkout_scenarios`: the DNI and
      RUC are copied, stripped, exactly when given; the business name
      becomes the name only for an invoice (requested here by the checkbox
      alone); the receipt
      type follows the checkbox; vat is the stripped RUC, else the stripped
      DNI, and is absent when both are blank. */
  method SimulateCheckout(form: Form) returns (newValues: map<string, Value>)
    ensures "invoice_type" in newValues && newValues["invoice_type"] == Str(if FormGet(form, "invoice_type_checkbox") == "on" then "factura" else "boleta")
    ensures "name" in newValues && "email" in newValues && newValues["email"] == Str(FormGet(form, "email"))
    ensures FormGet(form, "invoice_type_checkbox") == "on" && "razon_social" in form ==>
      newValues["name"] == Str(Strip(form["razon_social"]))
    ensures !(FormGet(form, "invoice_type_checkbox") == "on" && "razon_social" in form) ==>
      newValues["name"] == Str(Strip(FormGet(form, "name")))
    ensures FormGet(form, "ruc") != "" && Strip(form["ruc"]) != "" ==> "vat" in newValues && newValues["vat"] == Str(Strip(form["ruc"]))
    ensures !(FormGet(form, "ruc") != "" && Strip(form["ruc"]) != "") && FormGet(form, "dni") != "" && Strip(form["dni"]) != "" ==>
      "vat" in newValues && newValues["vat"] == Str(Strip(form["dni"]))
    ensures "vat" in newValues <==>
      (FormGet(form, "ruc") != "" && Strip(form["ruc"]) != "") || (FormGet(form, "dni") != "" && Strip(form["dni"]) != "")
    ensures FormGet(form, "dni") != "" ==> "dni" in newValues && newValues["dni"] == Str(Strip(form["dni"]))
    ensures FormGet(form, "dni") == "" ==> "dni" !in newValues
    ensures FormGet(form, "ruc") != "" ==> "ruc" in newValues && newValues["ruc"] == Str(Strip(form["ruc"]))
    ensures FormGet(form, "ruc") == "" ==> "ruc" !in newValues
    ensures newValues.Keys <= {"dni", "ruc", "name", "email", "invoice_type", "vat"}
  {
    newValues := map[];
    var invoice := FormGet(form, "invoice_type_checkbox") == "on";
    if "dni" in form && form["dni"] != "" {
      newValues := newValues["dni" := Str(Strip(form["dni"]))];
    }
    if "ruc" in form && form["ruc"] != "" {
      newValues := newValues["ruc" := Str(Strip(form["ruc"]))];
    }
    if invoice && "razon_social" in form {
      newValues := newValues["name" := Str(Strip(form["razon_social"]))];
    } else {
      newValues := newValues["name" := Str(Strip(FormGet(form, "name")))];
    }
    newValues := newValues["email" := Str(FormGet(form, "email"))];
    newValues := newValues["invoice_type" := Str(if invoice then "factura" else "boleta")];
    var vatValue := "";
    if "ruc" in newValues && Truthy(newValues["ruc"]) {
      vatValue := newValues["ruc"].s;
    } else if "dni" in newValues && Truthy(newValues["dni"]) {
      vatValue := newValues["dni"].s;
    }
    if vatValue != "" {
      newValues := newValues["vat" := Str(vatValue)];
    }
  }
}
