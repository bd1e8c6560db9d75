/** The checkout page widget: the VAT input keeps only its digits, the
    document-type select follows the number of digits (8 for a DNI, 11 for
    a RUC), and choosing a "factura" receipt makes the factura inputs
    required. */
module CheckoutWidget {
  import opened Common
  import ResPartner

  /** `value.replace(/\D/g, '')`: the digits of `s`, in order. */
  function DigitsOnly(s: string): (r: string)
    ensures |r| <= |s|
    ensures forall i :: 0 <= i < |r| ==> IsDigit(r[i])
  {
    if s == [] then [] else (if IsDigit(s[0]) then [s[0]] else []) + DigitsOnly(s[1..])
  }

  /** The filter keeps the order: the digits of a concatenation are the
      digits of its first part followed by those of its second. With
      DigitsOnlyOfChar this fixes DigitsOnly on every input. */
  lemma {:induction false} DigitsOnlyDistributes(a: string, b: string)
    ensures DigitsOnly(a + b) == DigitsOnly(a) + DigitsOnly(b)
    decreases |a|
  {
    if a == [] {
      assert a + b == b;
    } else {
      var head := if IsDigit(a[0]) then [a[0]] else [];
      assert (a + b)[0] == a[0];
      assert (a + b)[1..] == a[1..] + b;
      assert DigitsOnly(a + b) == head + DigitsOnly(a[1..] + b);
      DigitsOnlyDistributes(a[1..], b);
      assert DigitsOnly(a) == head + DigitsOnly(a[1..]);
    }
  }

  /** The filter works character by character: a single character is kept
      exactly when it is a digit. */
  lemma DigitsOnlyOfChar(c: char)
    ensures DigitsOnly([c]) == (if IsDigit(c) then [c] else [])
  {
    assert [c][1..] == [];
  }

  /** A string that is all digits is left as it is. */
  lemma {:induction false} DigitsOnlyKeepsDigitText(s: string)
    requires forall i :: 0 <= i < |s| ==> IsDigit(s[i])
    ensures DigitsOnly(s) == s
  {
    if s != [] {
      DigitsOnlyKeepsDigitText(s[1..]);
      assert [s[0]] + s[1..] == s;
    }
  }

  /** Filtering the input a second time changes nothing: the handler is
      idempotent. */
  lemma DigitsOnlyIdempotent(s: string)
    ensures DigitsOnly(DigitsOnly(s)) == DigitsOnly(s)
  {
    DigitsOnlyKeepsDigitText(DigitsOnly(s));
  }

  /** The number of digits in `s`. */
  function DigitCount(s: string): nat {
    if s == [] then 0 else (if IsDigit(s[0]) then 1 else 0) + DigitCount(s[1..])
  }

  /** No digit is lost: the filtered text has as many characters as `s` has
      digits. */
  lemma {:induction false} DigitsOnlyKeepsEveryDigit(s: string)
    ensures |DigitsOnly(s)| == DigitCount(s)
  {
    if s != [] {
      DigitsOnlyKeepsEveryDigit(s[1..]);
    }
  }

  // ---------------------------------------------------------------------
  // Finding an option of the document-type select

  /** An `<option>` of the select: its text and its value. */
  datatype SelectOption = SelectOption(text: string, value: string)

  /** The option text, trimmed and lower-cased, contains one of the search
      texts, lower-cased. */
  predicate TextMatches(text: string, searchTexts: seq<string>) {
    exists j :: 0 <= j < |searchTexts| && Contains(ToLower(Strip(text)), ToLower(searchTexts[j]))
  }

  /** The value of the first matching option; none when no option matches. */
  function FirstMatch(options: seq<SelectOption>, searchTexts: seq<string>): Option<string>
  {
    if options == [] then None
    else if TextMatches(options[0].text, searchTexts) then Some(options[0].value)
    else FirstMatch(options[1..], searchTexts)
  }

  /** FirstMatch finds nothing exactly when no option matches. */
  lemma {:induction false} FirstMatchNoneIff(options: seq<SelectOption>, searchTexts: seq<string>)
    ensures FirstMatch(options, searchTexts) == None <==>
      forall k :: 0 <= k < |options| ==> !TextMatches(options[k].text, searchTexts)
  {
    if options != [] && !TextMatches(options[0].text, searchTexts) {
      var rest := options[1..];
      FirstMatchNoneIff(rest, searchTexts);
      if FirstMatch(rest, searchTexts) == None {
        forall k | 0 <= k < |options| ensures !TextMatches(options[k].text, searchTexts) {
          if k > 0 { assert options[k] == rest[k - 1]; }
        }
      } else {
        var k :| 0 <= k < |rest| && TextMatches(rest[k].text, searchTexts);
        assert options[k + 1] == rest[k];
      }
    }
  }

  /** The position of the first matching option; |options| when none
      matches. */
  function FirstMatchIndex(options: seq<SelectOption>, searchTexts: seq<string>): (k: nat)
    ensures k <= |options|
  {
    if options == [] || TextMatches(options[0].text, searchTexts) then 0
    else 1 + FirstMatchIndex(options[1..], searchTexts)
  }

  /** FirstMatch answers with the option at FirstMatchIndex, and no option
      before it matches. */
  lemma {:induction false} FirstMatchAtIndex(options: seq<SelectOption>, searchTexts: seq<string>)
    ensures var k := FirstMatchIndex(options, searchTexts);
      (k < |options| ==> FirstMatch(options, searchTexts) == Some(options[k].value) && TextMatches(options[k].text, searchTexts)) &&
      (k == |options| ==> FirstMatch(options, searchTexts) == None)
    ensures forall j :: 0 <= j < FirstMatchIndex(options, searchTexts) ==> !TextMatches(options[j].text, searchTexts)
  {
    if options != [] && !TextMatches(options[0].text, searchTexts) {
      var rest := options[1..];
      FirstMatchAtIndex(rest, searchTexts);
      var k := FirstMatchIndex(rest, searchTexts);
      assert forall j :: 0 <= j < k ==> options[j + 1] == rest[j];
    }
  }

  /** What FirstMatch finds is the value of a matching option before which
      none matches. */
  lemma FirstMatchIsFirst(options: seq<SelectOption>, searchTexts: seq<string>)
    ensures FirstMatch(options, searchTexts).Some? ==>
      exists k :: 0 <= k < |options| && options[k].value == FirstMatch(options, searchTexts).value &&
        TextMatches(options[k].text, searchTexts) &&
        forall j :: 0 <= j < k ==> !TextMatches(options[j].text, searchTexts)
  {
    FirstMatchAtIndex(options, searchTexts);
    var k := FirstMatchIndex(options, searchTexts);
    if k < |options| {
      assert options[k].value == FirstMatch(options, searchTexts).value;
    }
  }

  /** The inner loop of `_findOptionByText`: the search texts in order,
      stopping at the first one the option text contains. */
  method MatchesAnySearchText(text: string, searchTexts: seq<string>) returns (hit: bool)
    ensures hit == TextMatches(text, searchTexts)
  {
    var optionText := ToLower(Strip(text));
    hit := false;
    var i := 0;
    while i < |searchTexts| && !hit
      invariant 0 <= i <= |searchTexts|
      invariant hit ==> TextMatches(text, searchTexts)
      invariant !hit ==> forall j :: 0 <= j < i ==> !Contains(optionText, ToLower(searchTexts[j]))
    {
      if Contains(optionText, ToLower(searchTexts[i])) {
        hit := true;
      }
      i := i + 1;
    }
  }

  /** `_findOptionByText`: walk the options in order and, for each, the
      search texts in order; stop at the first hit. */
  method FindOptionByText(options: seq<SelectOption>, searchTexts: seq<string>) returns (found: Option<string>)
    ensures found == FirstMatch(options, searchTexts)
  {
    found := None;
    var k := 0;
    while k < |options|
      invariant 0 <= k <= |options|
      invariant FirstMatch(options[k..], searchTexts) == FirstMatch(options, searchTexts)
    {
      var hit := MatchesAnySearchText(options[k].text, searchTexts);
      assert options[k..][0] == options[k];
      if hit {
        found := Some(options[k].value);
        return;
      }
      assert options[k..][1..] == options[k + 1..];
      k := k + 1;
    }
  }

  // ---------------------------------------------------------------------
  // Detecting the document type

  const DniTexts: seq<string> := ["DNI", "dni"]
  const RucTexts: seq<string> := ["RUC", "ruc"]

  /** The option texts searched for a filtered VAT value: a DNI for exactly
      eight digits, a RUC for exactly eleven, nothing otherwise (an
      incomplete number or an empty field). */
  function SearchTextsFor(vatValue: string): (texts: Option<seq<string>>)
    ensures texts == Some(DniTexts) <==> |vatValue| == 8 && AllDigits(vatValue)
    ensures texts == Some(RucTexts) <==> |vatValue| == 11 && AllDigits(vatValue)
    ensures texts.Some? ==> texts == Some(DniTexts) || texts == Some(RucTexts)
  {
    if |vatValue| == 8 && AllDigits(vatValue) then Some(DniTexts)
    else if |vatValue| == 11 && AllDigits(vatValue) then Some(RucTexts)
    else None
  }

  /** The widget and the partner model agree: on a string of digits the
      select looks for "DNI" exactly when the partner would be classified
      as a DNI, and for "RUC" exactly when it would be classified as a RUC. */
  lemma WidgetAgreesWithPartnerClassification(vatValue: string)
    requires AllDigits(vatValue)
    ensures SearchTextsFor(vatValue) == Some(DniTexts) <==> ResPartner.ClassifyVat(vatValue) == ResPartner.Dni
    ensures SearchTextsFor(vatValue) == Some(RucTexts) <==> ResPartner.ClassifyVat(vatValue) == ResPartner.Ruc
  {
    ResPartner.DigitsClassifiedByLength(vatValue);
  }

  /** The page state the handlers touch. */
  class CheckoutPage {
    /** The VAT input's value. */
    var vatInput: string
    /** The options of the document-type select; none when the page has no
        such select. */
    var documentTypeOptions: Option<seq<SelectOption>>
    /** The select's current value. */
    var documentType: string
    /** Whether the factura inputs are shown and carry `required`. */
    var facturaShown: bool
    var facturaRequired: bool

    constructor (options: Option<seq<SelectOption>>, selected: string)
      ensures vatInput == "" && documentTypeOptions == options && documentType == selected
      ensures !facturaShown && !facturaRequired
    {
      vatInput := "";
      documentTypeOptions := options;
      documentType := selected;
      facturaShown := false;
      facturaRequired := false;
    }

    /** The select value after `_autoDetectDocumentType(vatValue)`: the
        matching option's value when the page has the select, the value has
        eight or eleven digits, and an option with a non-empty value
        matches; the current value otherwise. */
    function DetectedDocumentType(vatValue: string): (selected: string)
      reads this
    {
      match (documentTypeOptions, SearchTextsFor(vatValue))
      case (Some(options), Some(texts)) =>
        (match FirstMatch(options, texts)
         case Some(v) => if v != "" then v else documentType
         case None => documentType)
      case _ => documentType
    }

    /** `_autoDetectDocumentType`. */
    method AutoDetectDocumentType(vatValue: string)
      modifies this
      ensures documentType == old(DetectedDocumentType(vatValue))
      ensures vatInput == old(vatInput) && documentTypeOptions == old(documentTypeOptions)
      ensures facturaShown == old(facturaShown) && facturaRequired == old(facturaRequired)
    {
      if documentTypeOptions.None? {
        return;
      }
      var options := documentTypeOptions.value;
      var texts: seq<string>;
      if |vatValue| == 8 && AllDigits(vatValue) {
        texts := DniTexts;
      } else if |vatValue| == 11 && AllDigits(vatValue) {
        texts := RucTexts;
      } else {
        return;
      }
      var selectedValue := FindOptionByText(options, texts);
      if selectedValue.Some? && selectedValue.value != "" {
        documentType := selectedValue.value;
      }
    }

    /** `_onVatInputChange`: the input keeps only its digits, then the
        document type is detected from them. */
    method OnVatInputChange(raw: string)
      modifies this
      ensures vatInput == DigitsOnly(raw)
      ensures documentType == old(DetectedDocumentType(DigitsOnly(raw)))
      ensures documentTypeOptions == old(documentTypeOptions)
      ensures facturaShown == old(facturaShown) && facturaRequired == old(facturaRequired)
    {
      vatInput := DigitsOnly(raw);
      AutoDetectDocumentType(vatInput);
    }

    /** `_onChangeInvoiceType`: "factura" shows the factura inputs and makes
        them required; any other value hides them and drops `required`. */
    method OnChangeInvoiceType(invoiceType: string)
      modifies this
      ensures facturaShown == (invoiceType == "factura") && facturaRequired == (invoiceType == "factura")
      ensures vatInput == old(vatInput) && documentType == old(documentType)
      ensures documentTypeOptions == old(documentTypeOptions)
    {
      if invoiceType == "factura" {
        facturaShown := true;
        facturaRequired := true;
      } else {
        facturaShown := false;
        facturaRequired := false;
      }
    }
  }

  /** A selection made by the detection is the value of the first option
      mentioning the detected document, and the select changes only for an
      eight- or eleven-digit value. */
  lemma DetectionSelectsMatchingOption(page: CheckoutPage, vatValue: string)
    requires page.DetectedDocumentType(vatValue) != page.documentType
    ensures page.documentTypeOptions.Some? && SearchTextsFor(vatValue).Some?
    ensures var options := page.documentTypeOptions.value;
      var texts := SearchTextsFor(vatValue).value;
      exists k :: 0 <= k < |options| && options[k].value == page.DetectedDocumentType(vatValue) &&
        TextMatches(options[k].text, texts) &&
        forall j :: 0 <= j < k ==> !TextMatches(options[j].text, texts)
  {
    var options := page.documentTypeOptions.value;
    var texts := SearchTextsFor(vatValue).value;
    FirstMatchIsFirst(options, texts);
  }
}
