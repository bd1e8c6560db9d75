/** Partner identity documents (`res.partner` extension): the document type
    computed from a VAT number, its display label, and the rewriting of a
    DNI or RUC supplied at create/write time into the `vat` field. */
module ResPartner {
  import opened Common

  /** The selection `document_type`. */
  datatype DocumentType = Dni | Ruc | Vat | Passport | ForeignId | Diplomatic | NonDomiciled

  /** The selection key stored in the database. */
  function Code(t: DocumentType): string {
    match t
    case Dni => "dni"
    case Ruc => "ruc"
    case Vat => "vat"
    case Passport => "passport"
    case ForeignId => "foreign_id"
    case Diplomatic => "diplomatic"
    case NonDomiciled => "non_domiciled"
  }

  /** The characters removed from a VAT number before it is classified. */
  predicate IsVatSeparator(c: char) { c == ' ' || c == '-' || c == '.' }

  /** The VAT number with every space, hyphen and dot removed. */
  function CleanVat(vat: string): (r: string)
    ensures |r| <= |vat|
    ensures forall i :: 0 <= i < |r| ==> !IsVatSeparator(r[i])
    ensures (forall i :: 0 <= i < |vat| ==> !IsVatSeparator(vat[i])) ==> r == vat
  {
    if vat == [] then []
    else (if IsVatSeparator(vat[0]) then [] else [vat[0]]) + CleanVat(vat[1..])
  }

  /** Document type of a partner whose `vat` is `vat` ("" stands for an
      unset field): 8 digits once cleaned is a DNI, 11 digits a RUC, and
      anything else, including no VAT at all, is a generic VAT. */
  function ClassifyVat(vat: string): (t: DocumentType)
    ensures t == Dni <==> vat != "" && |CleanVat(vat)| == 8 && AllDigits(CleanVat(vat))
    ensures t == Ruc <==> vat != "" && |CleanVat(vat)| == 11 && AllDigits(CleanVat(vat))
    ensures t == Dni || t == Ruc || t == Vat
    ensures vat == "" ==> t == Vat
  {
    if vat == "" then Vat
    else
      var clean := CleanVat(vat);
      if |clean| == 8 && AllDigits(clean) then Dni
      else if |clean| == 11 && AllDigits(clean) then Ruc
      else Vat
  }

  /** A plain string of digits is classified by its length alone. */
  lemma DigitsClassifiedByLength(vat: string)
    requires AllDigits(vat)
    ensures ClassifyVat(vat) == (if |vat| == 8 then Dni else if |vat| == 11 then Ruc else Vat)
  {
    assert CleanVat(vat) == vat;
  }

  // ---------------------------------------------------------------------
  // Labels

  /** `document_type_detected`: fixed Spanish labels for the three types
      the VAT classification produces, and Python's `title()` of the
      selection key, written out, for the others. */
  function DetectedLabel(t: DocumentType): (text: string)
    ensures t == Dni ==> text == "DNI Detectado"
    ensures t == Ruc ==> text == "RUC Detectado"
    ensures t == Vat ==> text == "VAT Genérico"
  {
    match t
    case Dni => "DNI Detectado"
    case Ruc => "RUC Detectado"
    case Vat => "VAT Genérico"
    case Passport => "Passport"
    case ForeignId => "Foreign_Id"
    case Diplomatic => "Diplomatic"
    case NonDomiciled => "Non_Domiciled"
  }

  /** Different types are shown with different labels. */
  lemma DetectedLabelIsInjective(a: DocumentType, b: DocumentType)
    ensures DetectedLabel(a) == DetectedLabel(b) ==> a == b
  {
  }

  // ---------------------------------------------------------------------
  // Partners recomputed in place

  class Partner {
    var vat: string
    var documentType: DocumentType
    var documentTypeDetected: string

    constructor (vat: string)
      ensures this.vat == vat && documentType == Vat
    {
      this.vat := vat;
      documentType := Vat;
      documentTypeDetected := "";
    }
  }

  /** `_compute_document_type` over a recordset: every partner's type
      becomes the classification of its own VAT; VATs are not touched. */
  method ComputeDocumentType(partners: seq<Partner>)
    modifies set p | p in partners
    ensures forall p :: p in partners ==> p.vat == old(p.vat) && p.documentTypeDetected == old(p.documentTypeDetected)
    ensures forall j :: 0 <= j < |partners| ==> partners[j].documentType == ClassifyVat(partners[j].vat)
  {
    var i := 0;
    while i < |partners|
      invariant 0 <= i <= |partners|
      invariant forall p :: p in partners ==> p.vat == old(p.vat) && p.documentTypeDetected == old(p.documentTypeDetected)
      invariant forall j :: 0 <= j < i ==> partners[j].documentType == ClassifyVat(partners[j].vat)
    {
      partners[i].documentType := ClassifyVat(partners[i].vat);
      i := i + 1;
    }
  }

  /** `_compute_document_type_detected` over a recordset. */
  method ComputeDocumentTypeDetected(partners: seq<Partner>)
    modifies set p | p in partners
    ensures forall p :: p in partners ==> p.documentType == old(p.documentType) && p.vat == old(p.vat)
    ensures forall j :: 0 <= j < |partners| ==> partners[j].documentTypeDetected == DetectedLabel(partners[j].documentType)
  {
    var i := 0;
    while i < |partners|
      invariant 0 <= i <= |partners|
      invariant forall p :: p in partners ==> p.documentType == old(p.documentType) && p.vat == old(p.vat)
      invariant forall j :: 0 <= j < i ==> partners[j].documentTypeDetected == DetectedLabel(partners[j].documentType)
    {
      partners[i].documentTypeDetected := DetectedLabel(partners[i].documentType);
      i := i + 1;
    }
  }

  // ---------------------------------------------------------------------
  // create / write: DNI or RUC mapped to vat

  /** `str(v).strip()` */
  function StrippedText(v: Value): string { Strip(ValueToStr(v)) }

  /** The value a partner's `vat` field holds after `vals['vat']` is
      assigned: a falsy value leaves it unset. */
  function VatText(v: Value): string { if Truthy(v) then ValueToStr(v) else "" }

  predicate HasStandardRucPrefix(ruc: string) {
    StartsWith(ruc, "10") || StartsWith(ruc, "20") || StartsWith(ruc, "15")
    || StartsWith(ruc, "16") || StartsWith(ruc, "17")
  }

  /** The vat derived from a RUC of 11 digits: unchanged when it already
      starts with a recognised prefix, otherwise "20" followed by all of it
      but its first digit. */
  function RucToVat(ruc: string): (vat: string)
    requires |ruc| == 11 && AllDigits(ruc)
    ensures HasStandardRucPrefix(ruc) ==> vat == ruc
    ensures !HasStandardRucPrefix(ruc) ==> |vat| == 12 && vat[..2] == "20" && vat[2..] == ruc[1..]
  {
    if HasStandardRucPrefix(ruc) then ruc else "20" + ruc[1..]
  }

  /** A DNI as `create`/`write` accept it: 8 digits once stripped. */
  predicate IsDniText(dni: string) { |dni| == 8 && AllDigits(dni) }

  /** A RUC as `create`/`write` accept it: 11 digits once stripped. */
  predicate IsRucText(ruc: string) { |ruc| == 11 && AllDigits(ruc) }

  /** The vat that `create`/`write` derive from `vals`, if any. The RUC is
      looked at only when no DNI is set at all: a set but malformed DNI
      derives nothing. */
  function DerivedVat(vals: map<string, Value>): (vat: Option<string>)
    ensures TruthyAt(vals, "dni") ==>
      (vat.Some? <==> IsDniText(StrippedText(vals["dni"])))
      && (vat.Some? ==> vat.value == "10" + StrippedText(vals["dni"]) && |vat.value| == 10)
    ensures !TruthyAt(vals, "dni") && TruthyAt(vals, "ruc") ==>
      (vat.Some? <==> IsRucText(StrippedText(vals["ruc"])))
      && (vat.Some? ==> vat.value == RucToVat(StrippedText(vals["ruc"])))
    ensures !TruthyAt(vals, "dni") && !TruthyAt(vals, "ruc") ==> vat == None
  {
    if TruthyAt(vals, "dni") then
      var dni := StrippedText(vals["dni"]);
      if IsDniText(dni) then Some("10" + dni) else None
    else if TruthyAt(vals, "ruc") then
      var ruc := StrippedText(vals["ruc"]);
      if IsRucText(ruc) then Some(RucToVat(ruc)) else None
    else None
  }

  /** `vals` with the derived vat, if any, stored under "vat". */
  function WithDerivedVat(vals: map<string, Value>): map<string, Value> {
    match DerivedVat(vals)
    case Some(vat) => vals["vat" := Str(vat)]
    case None => vals
  }

  /** The `vals` dictionary as `create`/`write` pass it to the parent. */
  function RewriteVals(vals: map<string, Value>): (r: map<string, Value>)
    // nothing but vat and document_type is touched, and no key is removed
    ensures vals.Keys <= r.Keys <= vals.Keys + {"vat", "document_type"}
    ensures forall k :: k in vals && k != "vat" && k != "document_type" ==> r[k] == vals[k]
    // a derived vat replaces the caller's; otherwise the caller's is kept
    ensures DerivedVat(vals).Some? ==> "vat" in r && r["vat"] == Str(DerivedVat(vals).value)
    ensures DerivedVat(vals).None? ==>
      ("vat" in r <==> "vat" in vals) && ("vat" in vals ==> r["vat"] == vals["vat"])
    // whenever vals carries a vat, it carries that vat's classification
    ensures "vat" in r ==> "document_type" in r && r["document_type"] == Str(Code(ClassifyVat(VatText(r["vat"]))))
    ensures "vat" !in r ==>
      ("document_type" in r <==> "document_type" in vals)
      && ("document_type" in vals ==> r["document_type"] == vals["document_type"])
  {
    var withVat := WithDerivedVat(vals);
    if "vat" in withVat then
      withVat["document_type" := Str(Code(ClassifyVat(VatText(withVat["vat"]))))]
    else withVat
  }

  /** `create`/`write` rewrite the caller's `vals` in place before handing
      it to the parent. */
  method MapDocumentToVat(vals: Dict)
    modifies vals
    ensures vals.entries == RewriteVals(old(vals.entries))
  {
    match DerivedVat(vals.entries) {
      case Some(vat) => vals.entries := vals.entries["vat" := Str(vat)];
      case None =>
    }
    if "vat" in vals.entries {
      var t := ClassifyVat(VatText(vals.entries["vat"]));
      vals.entries := vals.entries["document_type" := Str(Code(t))];
    }
  }

  /** A DNI mapped to "10" + dni is ten digits long, so the document type
      stored beside it is the generic 'vat', never 'dni'. */
  lemma MappedDniIsGenericVat(vals: map<string, Value>)
    requires TruthyAt(vals, "dni")
    requires IsDniText(StrippedText(vals["dni"]))
    ensures |VatText(RewriteVals(vals)["vat"])| == 10
    ensures RewriteVals(vals)["document_type"] == Str("vat")
  {
    var vat := "10" + StrippedText(vals["dni"]);
    assert AllDigits(vat) by {
      forall i | 0 <= i < |vat| ensures IsDigit(vat[i]) {
        if i >= 2 { assert vat[i] == StrippedText(vals["dni"])[i - 2]; }
      }
    }
    DigitsClassifiedByLength(vat);
  }

  /** A RUC without a recognised prefix is rewritten to twelve digits, which
      the classification no longer recognises as a RUC. */
  lemma RewrittenRucIsGenericVat(ruc: string)
    requires |ruc| == 11 && AllDigits(ruc) && !HasStandardRucPrefix(ruc)
    ensures ClassifyVat(RucToVat(ruc)) == Vat
  {
    var vat := RucToVat(ruc);
    assert AllDigits(vat) by {
      forall i | 0 <= i < |vat| ensures IsDigit(vat[i]) {
        if i >= 2 { assert vat[i] == ruc[i - 1]; }
      }
    }
    DigitsClassifiedByLength(vat);
  }

  /** `_check_vat`: the VAT constraint accepts every value. */
  function CheckVat(vat: string): (accepted: bool)
    ensures accepted
  {
    true
  }
}
