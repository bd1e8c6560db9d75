# certifica_theme — a verified model of the shop's checkout and cart-summary logic

This project models the Odoo 13 module `certifica_theme`, a Peruvian web-shop theme, in Dafny, and proves properties of the model. It covers four areas.

1. **Identity documents at checkout.** A customer gives a DNI (8 digits) or, for a *factura*, a RUC (11 digits) and a business name.
   - The checkout controller merges these into the partner values and picks an address mode.
   - The partner model classifies a VAT number as DNI, RUC or generic VAT, and maps `dni`/`ruc` onto `vat` on create and write.
   - The checkout widget keeps only the digits of the VAT input and selects the matching document type.
   - The stand-alone mapping script and its table of cases are modelled too.
2. **Order-context repair for the cart summary.** A sale order has three optional references: a price list, a currency and a partner. Several overrides of `sale.order`, `website` and `ir.qweb` fill in missing references before the `website_sale.cart_summary` template is shown. They fall into two families:
   - the *conservative* ones, which never create a record and never edit a price list;
   - the *aggressive* ones, which create fallback price lists and partners and write a currency onto existing price lists.

   All of them work on one `OrderStore.Store` object. It holds sequences of price lists, partners and orders, and the number of currencies. Record id `k` lives at index `k - 1`, and id 0 is Odoo's empty reference. `search(..., limit=1)` returns the lowest matching id. `env.ref('base.PEN')` and `env.ref('base.USD')` are the store's `pen` and `usd` ids, 0 when the record is missing.
3. **Partner guards.** An order's partner must be set, must not be the website's own public partner, and must have a name and an e-mail.
   - The sale order checks this before confirmation and before a payment transaction.
   - Its `write` drops the website's partner.
   - The payment controller gives the first failing check as a message and redirects.
4. **The payment page's edit links.** `payment_edit_fix.js` appends `from_payment=1` to the edit links that lead back to the checkout or address form. It works in place, in three passes over the page's anchors.

Python dictionaries that the source changes in place (`checkout`, `vals`) are `Common.Dict` objects whose `entries` map the methods reassign. A method that changes them is proved equal to a function on maps, and the properties are lemmas about that function.

`_checkout_form_save` is modelled as written in both of its branches, although three of its outcomes are evidently unintended. In the 'new' branch, `time` is imported only inside one `if`. So when the created partner clashes with the website's partner and an e-mail was given, Python raises `UnboundLocalError`; `Checkout.CheckoutFormSave` returns that outcome. The intended branch, which re-creates the partner under a unique e-mail, is `Checkout.NewPartnerSave` (see "## Findings"). The 'edit' branch is modelled as written too: a `partner_id` that `int()` rejects ends in `UnboundLocalError` (the handler's log line reads the unbound `partner_id`), and a partner outside the order's company in `NameError`; the intended ValueError and 403 are `Checkout.EditPartnerSave`.

## Model

| member | source | states |
|---|---|---|
| Common.ParseInt | controllers/payment_override.py:73-80 | Python `int(s)` on a string: the stripped text reads as its value iff it is all digits or a sign followed by digits, a minus negating it; anything else, blank text included, raises ValueError (None) |
| Common.ParseIntOfIntToStr | controllers/payment_override.py:73-80 | reading back the decimal text of any integer gives that integer |
| OrderStore.FirstActivePricelist | models/website_sale_order_guarantee.py:86-88 | the lowest id of an active price list, 0 when there is none |
| OrderStore.FirstCustomer | models/website_sale_order_guarantee.py:100-102 | the lowest id of a customer partner, 0 when there is none |
| OrderStore.PenOrUsd | models/cart_summary_error_fix.py:58 | `env.ref('base.PEN') or env.ref('base.USD')`: PEN when it exists, else USD, else nothing |
| OrderStore.FirstActiveAppend | models/cart_summary_error_fix.py:30-38 | a price list appended after only inactive ones becomes the first active one |
| OrderStore.FirstCustomerAppend | models/cart_summary_error_fix.py:174-183 | a customer appended after only non-customers becomes the first customer |
| OrderStore.Store.CreateOrder | models/website_sale_order_guarantee.py:116 | `sale.order.create`: appends the order and returns its id exactly when its required price list and partner, and every reference it sets, exist; otherwise nothing changes |
| OrderStore.Store.WriteOrderFields | models/website_sale_error_handler.py:162 | `order.write(vals)` for a price list and a currency: refused with nothing changed when a written reference is missing or the price list is cleared |
| Checkout.RequestedPartnerId | controllers/checkout.py:30 | `int(kw.get('partner_id', -1))`: -1 when the key is absent, Python's `int` of the text otherwise |
| Checkout.AddressModeAsWritten | controllers/checkout.py:30-50 | the address route's mode as written: it can never answer 403, because `Forbidden` is not imported |
| Checkout.AddressMode | controllers/checkout.py:30-50 | the intended mode: a public order gives ('new','billing'); the order's own partner gives ('edit','billing'); a partner of the order's company gives ('edit','shipping'); any other positive id gives 403; otherwise ('new','shipping'); a non-numeric id raises ValueError |
| Checkout.AddressModeForbiddenIsNameError | controllers/checkout.py:42-46 | the as-written and intended modes agree everywhere, except that each intended 403 is a NameError as written |
| Checkout.AddressModeCounterexample | controllers/checkout.py:46 | partner 7, outside the company of partner 3: the intended answer is 403, the written one is NameError |
| Checkout.WithPreferredVat | controllers/checkout.py:144-148 | `vat` becomes a truthy `ruc`, else a truthy `dni`; otherwise the values are untouched; no other key changes |
| Checkout.MergeDocuments | controllers/checkout.py:124-148 | the stripped form DNI, RUC and business name land in the checkout; RUC wins over DNI for `dni` and for `vat`; the name is replaced only for a factura; no other key changes |
| Checkout.MergeFormDocuments | controllers/checkout.py:124-148 | the in-place merge leaves the caller's checkout equal to the merged values |
| Checkout.PlaceholderEmail | controllers/checkout.py:159-161 | the generated e-mail of a customer who gave none is non-empty and starts with `customer_` |
| Checkout.NewPartnerValues | controllers/checkout.py:155-166 | a new partner always has a truthy e-mail and name; a given e-mail or name is kept, else the placeholder e-mail or "Cliente" is used; every other key is kept |
| Checkout.EditAccessAsWritten | controllers/checkout.py:205-210 | the edit-mode double check as written never answers 403 (NameError instead) |
| Checkout.EditAccessForbiddenIsNameError | controllers/checkout.py:205-210 | the check as written agrees with the intended one everywhere except that each intended 403 is a NameError |
| Checkout.EditAccessCheck | controllers/checkout.py:205-210 | the intended check: an edit is allowed iff the partner is the order's or one of its company's, and forbidden otherwise |
| Checkout.EditAccessCounterexample | controllers/checkout.py:209-210 | the input for which the intended 403 becomes a NameError |
| Checkout.UniqueEmail | controllers/checkout.py:195 | the address of a partner re-created after a clash starts with `unique_` and differs from the generated placeholder address |
| Checkout.NewPartnerSave | controllers/checkout.py:155-200 | the intended 'new' branch: the values always carry an e-mail and a name; a partner that is the website's public one is re-created under a unique e-mail with every other value kept; only a ValidationError (an id of 0) can escape, and a created partner has a non-zero id |
| Checkout.NewPartnerSaveAsWritten | controllers/checkout.py:155-200 | the 'new' branch as written: UnboundLocalError exactly when the created partner is the public one and an e-mail was given, the values then being NewPartnerValues |
| Checkout.NewPartnerSaveUnboundOnlyOnClash | controllers/checkout.py:159-195 | on every input the written and the intended branch agree, except that on a clash with a given e-mail the written one raises UnboundLocalError and the intended one does not |
| Checkout.NewPartnerSaveCounterexample | controllers/checkout.py:159-195 | a customer who typed an e-mail, `create` returning the public partner 4 and then partner 9: UnboundLocalError as written, partner 9 created as intended |
| Checkout.EditPartnerSave | controllers/checkout.py:202-221 | the intended 'edit' branch: ValueError iff `int()` rejects the posted id, ValidationError iff the id is 0, a 403 iff the partner is neither the order's nor one of its company's, the update of that partner otherwise |
| Checkout.EditPartnerSaveAsWritten | controllers/checkout.py:202-221 | the 'edit' branch as written: never a ValueError nor a 403; UnboundLocalError iff `int()` rejects the posted id |
| Checkout.EditPartnerSaveErrorsRenamed | controllers/checkout.py:204-218 | on every input the written branch is the intended one with the ValueError turned into UnboundLocalError and the 403 into NameError |
| Checkout.EditPartnerSaveCounterexample | controllers/checkout.py:204-216 | an edit posted with an empty `partner_id`: ValueError as intended, UnboundLocalError as written |
| Checkout.CheckoutFormSave | controllers/checkout.py:110-226 | the merge happens in both modes; both branches are the ones written. In 'new' mode the checkout and the outcome are NewPartnerSaveAsWritten of the merged values; in 'edit' mode the outcome is EditPartnerSaveAsWritten of the form |
| Checkout.ValuesPreprocess | controllers/checkout.py:228-279 | `invoice_type` is 'factura' iff an invoice is requested; the stripped DNI, and for a factura the RUC and business name, are copied when given; no other key of the parent's values changes |
| Checkout.CheckoutFormValidate | controllers/checkout.py:281-310 | pickup checkouts are checked here, the rest are delegated; with the invoice checkbox ticked an 11-digit RUC and a business name are required, otherwise a given DNI must be 8 digits; one message per error |
| ResPartner.CleanVat | models/res_partner.py:33 | the VAT with every space, hyphen and dot removed; a VAT without them is unchanged |
| ResPartner.ClassifyVat | models/res_partner.py:27-53 | DNI iff the cleaned VAT is 8 digits, RUC iff it is 11 digits, generic VAT otherwise (and for no VAT) |
| ResPartner.DigitsClassifiedByLength | models/res_partner.py:36-53 | a string of digits is classified by its length alone |
| ResPartner.DetectedLabel | models/res_partner.py:56-68 | the fixed Spanish labels for DNI, RUC and VAT |
| ResPartner.DetectedLabelIsInjective | models/res_partner.py:56-68 | different document types are shown with different labels |
| ResPartner.ComputeDocumentType | models/res_partner.py:27-53 | each partner of the recordset gets the type its VAT classifies to; VATs are unchanged |
| ResPartner.ComputeDocumentTypeDetected | models/res_partner.py:56-68 | each partner's label is the label of its type; types are unchanged |
| ResPartner.RucToVat | models/res_partner.py:90-99 | a RUC with a standard prefix is kept; any other is rewritten to "20" followed by the RUC's last ten digits |
| ResPartner.DerivedVat | models/res_partner.py:82-99 | a truthy DNI of 8 digits gives "10" + DNI; otherwise a truthy RUC of 11 digits gives its mapped VAT; nothing otherwise |
| ResPartner.RewriteVals | models/res_partner.py:78-110 | the derived VAT is stored under `vat`, and `document_type` is the classification of the stored VAT; other keys are kept |
| ResPartner.MapDocumentToVat | models/res_partner.py:78-110 | the in-place rewrite of `vals` by create and write equals RewriteVals |
| ResPartner.MappedDniIsGenericVat | models/res_partner.py:82-88 | a DNI mapped to "10" + DNI is ten digits long, so the partner gets the generic VAT type, not DNI |
| ResPartner.RewrittenRucIsGenericVat | models/res_partner.py:94-99 | a RUC rewritten to twelve digits is classified as generic VAT, not RUC |
| ResPartner.CheckVat | models/res_partner.py:146-154 | the VAT constraint accepts every value |
| VatMapping.VatSource | test_vat_mapping.py:84-92 | the value promoted to `vat`: the first of ruc, ruc_custom and dni that holds non-blank text; None iff none does |
| VatMapping.UpdateVatField | test_vat_mapping.py:75-99 | a copy of the case data with `vat` set from VatSource; nothing else changes |
| VatMapping.VatCases | test_vat_mapping.py:23-72 | the script's table of five cases |
| VatMapping.VatCasesMeetExpectations | test_vat_mapping.py:23-72 | every case of the table promotes exactly its expected VAT |
| VatMapping.RunVatMapping | test_vat_mapping.py:75-109 | running the table records a pass for every case |
| VatMapping.PartnerCreateDisagreesWithCase3 | test_vat_mapping.py:42-51 | on case 3 the script promotes the RUC, while the partner model's own create would store "10" + DNI |
| VatMapping.PartnerCreateDisagreesOnDni | test_vat_mapping.py:8-51 | for any vals with an eight-digit DNI the partner model stores "10" + DNI, whereas the script stores the DNI itself when no RUC is given (case 1) |
| VatMapping.CheckoutMergeAgreesOnRuc | test_vat_mapping.py:84-92 | on a RUC of digits the checkout merge and the script agree: both make it the vat |
| VatMapping.SimulateCheckout | test_vat_mapping.py:149-186 | the simulated preprocessing: the invoice type follows the checkbox; the business name replaces the name for a factura; the DNI and the RUC are copied, stripped, exactly when posted non-empty; `vat` is present iff the stripped RUC or the stripped DNI is non-empty, and is the stripped RUC, else the stripped DNI |
| CheckoutWidget.DigitsOnly | static/src/js/checkout_custom.js:200-209 | the input keeps only digits, in their order, and never grows |
| CheckoutWidget.DigitsOnlyDistributes | static/src/js/checkout_custom.js:200-209 | filtering a concatenation filters each part, keeping their order |
| CheckoutWidget.DigitsOnlyOfChar | static/src/js/checkout_custom.js:200-209 | a single character is kept iff it is a digit |
| CheckoutWidget.DigitsOnlyKeepsDigitText | static/src/js/checkout_custom.js:200-209 | text made of digits is unchanged |
| CheckoutWidget.DigitsOnlyIdempotent | static/src/js/checkout_custom.js:200-209 | filtering twice is filtering once |
| CheckoutWidget.DigitsOnlyKeepsEveryDigit | static/src/js/checkout_custom.js:200-209 | no digit is lost: the result is as long as the input has digits |
| CheckoutWidget.FirstMatchNoneIff | static/src/js/checkout_custom.js:253-268 | the match is None iff no option matches |
| CheckoutWidget.FirstMatchAtIndex | static/src/js/checkout_custom.js:253-268 | the match is the option at the first matching position, None when there is none, and no option before it matches |
| CheckoutWidget.FirstMatchIsFirst | static/src/js/checkout_custom.js:253-268 | a match is the value of a matching option, and no earlier option matches |
| CheckoutWidget.MatchesAnySearchText | static/src/js/checkout_custom.js:259-264 | the inner loop reports a hit exactly when the trimmed, lower-cased option text contains one of the lower-cased search texts |
| CheckoutWidget.FindOptionByText | static/src/js/checkout_custom.js:253-268 | the nested loop over options and search texts returns the first matching option |
| CheckoutWidget.SearchTextsFor | static/src/js/checkout_custom.js:214-248 | the DNI texts iff the value is 8 digits, the RUC texts iff it is 11 digits, none otherwise |
| CheckoutWidget.WidgetAgreesWithPartnerClassification | static/src/js/checkout_custom.js:214-248 | on digit strings the widget and the partner model detect DNI and RUC for exactly the same values |
| CheckoutWidget.CheckoutPage.AutoDetectDocumentType | static/src/js/checkout_custom.js:214-248 | the select takes the detected option's value; nothing else on the page changes |
| CheckoutWidget.CheckoutPage.OnVatInputChange | static/src/js/checkout_custom.js:200-209 | the input holds its digits only, and the type is detected from them |
| CheckoutWidget.CheckoutPage.OnChangeInvoiceType | static/src/js/checkout_custom.js:149-177 | the factura inputs are shown and required iff the type is "factura" |
| CheckoutWidget.DetectionSelectsMatchingOption | static/src/js/checkout_custom.js:253-268 | a selection the detection makes is the value of the first option whose text matches |
| SaleValidation.DisabledCheckoutValidation | models/website_sale_validation_override.py:10-364 | every checkout validator, the main `_checkout_form_validate` at :10-75 and the address, payment, shipping, cart, order and final variants at :179-364, answers no errors and no messages |
| SaleValidation.DisabledOrderValidation | models/sale_validation_override.py:179-215 | the order data, partner and final checks pass every order |
| SaleValidation.FillField | models/website_sale_validation_override.py:129-131 | one fill step: a key holding a truthy value keeps it, otherwise it gets the form's value or else the default; no other key changes |
| SaleValidation.FillState | models/website_sale_validation_override.py:153-155 | the state step: set from the form only when missing and given; no other key changes and truthy values are kept |
| SaleValidation.FillContact | models/website_sale_validation_override.py:129-139 | a missing name, e-mail or phone gets the form's value, else its default; truthy fields and every other key are kept |
| SaleValidation.FillStreet | models/website_sale_validation_override.py:141-151 | a missing street, city or country gets the form's value, else its default (Peru, 173); truthy fields and every other key are kept |
| SaleValidation.FillCodes | models/website_sale_validation_override.py:153-163 | the state is copied only when missing and given; a missing zip or VAT gets the form's value, else its default; truthy fields are kept |
| SaleValidation.FilledHasRequiredFields | models/website_sale_validation_override.py:129-163 | after the fill, every field the partner write needs is truthy |
| SaleValidation.FilledKeepsTruthyFields | models/website_sale_validation_override.py:129-163 | a field that already held a truthy value is never overwritten |
| SaleValidation.FilledTouchesOnlyCheckoutFields | models/website_sale_validation_override.py:129-163 | only the required fields and the state are added or changed |
| SaleValidation.FilledMissingFields | models/website_sale_validation_override.py:129-163 | a missing field receives the form's value, else its fixed default (Peru 173, "00000", "00000000") |
| SaleValidation.FilledState | models/website_sale_validation_override.py:153-155 | the state is copied only when it is missing and given; it has no default |
| SaleValidation.FillIsIdempotent | models/website_sale_validation_override.py:129-163 | a second save fills nothing |
| SaleValidation.FillCheckout | models/sale_validation_override.py:129-163 | the in-place fill of the caller's checkout equals the fill function, key by key |
| SaleValidation.CheckoutFormSave | models/sale_validation_override.py:77-177 | the checkout is filled and holds every required field; the parent's id is returned, or the fixed id 1 when the parent raises |
| OrderGuarantee.ConservativeFix | models/website_sale_order_guarantee.py:125-172 | the repair reports success iff the order is then ready; it sets only a missing price list or partner, keeps those already set, and uses only existing records |
| OrderGuarantee.FixLeavesReadyOrder | models/website_sale_order_guarantee.py:125-172 | a ready order is left exactly as it is, and reported ready |
| OrderGuarantee.FixIsIdempotent | models/website_sale_order_guarantee.py:125-172 | repairing a repaired order changes nothing |
| OrderGuarantee.FixFailsOnlyForMissingRecords | models/website_sale_order_guarantee.py:133-165 | the repair fails exactly when the order's (or the first active) price list is missing or has no currency, or the order has no partner and no customer exists |
| OrderGuarantee.FixOrderForCartSummary | models/website_sale_order_guarantee.py:125-172 | the stored order becomes the ConservativeFix of the old one; no other order, price list or partner changes |
| OrderGuarantee.CreateDefaultOrderForCartSummary | models/website_sale_order_guarantee.py:78-123 | the default order is appended exactly when the first active price list has a currency and a customer exists, else nothing changes; a created order is valid; no record but the order is created |
| OrderGuarantee.DefaultCartOrder | models/website_sale_order_guarantee.py:78-123 | the default order is ready for the cart summary whenever it can be created |
| OrderGuarantee.CreateEmergencyOrderForCartSummary | models/website_sale_order_guarantee.py:174-196 | the order on the hard-coded ids 1, created iff those records exist |
| OrderGuarantee.SaleGetOrder | models/website_sale_order_guarantee.py:10-42 | the orders and the order handed out are those SaleGetOrderOutcome gives for the old orders; price lists and partners never change |
| OrderGuarantee.SaleGetOrderOutcome | models/website_sale_order_guarantee.py:10-42 | every order handed out is valid, or none is; an existing order is repaired and kept iff the repair succeeds, else a default order is created iff it can be; when the lookup raises, the emergency order iff price list 1 and partner 1 exist |
| OrderGuarantee.KeepOrReplaceOrder | models/website_sale_order_guarantee.py:18-42 | a returned order is repaired and handed out iff the repair makes it ready; otherwise the default order is appended when it can be created, and none is handed out when it cannot |
| OrderGuarantee.EnsureCartSummaryAlwaysWorks | models/website_sale_order_guarantee.py:198-223 | the orders and result are those EnsureWorksOutcome gives for the old orders |
| OrderGuarantee.EnsureWorksOutcome | models/website_sale_order_guarantee.py:198-223 | success iff the current order is valid or a default order can be created; a valid current order changes nothing; otherwise success appends the default order, which is valid |
| TemplateErrorInterceptor.TemplateFix | models/template_error_interceptor.py:20-26 | only an order whose price list is missing or has no currency is repaired; any other order is left alone |
| TemplateErrorInterceptor.TemplateFixReadiness | models/template_error_interceptor.py:77-124 | the template repair makes an order ready exactly when the full repair does, except for an order that lacks only its partner |
| TemplateErrorInterceptor.CreateSafeOrderForTemplate | models/template_error_interceptor.py:35-75 | an order on the first active price list and first customer, or nothing when either is missing; no price list or partner is created |
| TemplateErrorInterceptor.SafeTemplateOrder | models/template_error_interceptor.py:35-75 | with a price list and a customer found, the safe order is ready iff that price list has a currency |
| TemplateErrorInterceptor.GetSafeOrderForTemplate | models/template_error_interceptor.py:10-33 | the website's order is kept (after the repair when needed), else a new safe order is created |
| TemplateErrorInterceptor.CartSummarySafeData | models/template_error_interceptor.py:143-176 | the safe order's data iff that order is ready after the repair (the website's order, else a new default order), the dummy data otherwise; shown data always has a currency, price list and partner |
| TemplateErrorInterceptor.TemplateSafeData | models/template_error_interceptor.py:126-141 | data is given iff the template is the cart summary, and it is then what CartSummarySafeData promises: the empty summary or the summary of a valid order with all three references; for a website order, non-empty iff the repaired order is ready, with that order's id; otherwise non-empty iff a default order can be created, with the new order's id. Any other template changes nothing |
| TemplateRenderInterceptor.OrderFields | models/template_render_interceptor.py:58-72 | the total, currency and price list given for an order are its own when its price list has a currency; otherwise a zero total and None |
| TemplateRenderInterceptor.WithOrder | models/template_render_interceptor.py:52-72 | the order and its fields are set; every other entry of the values is kept |
| TemplateRenderInterceptor.PrepareSafeCartSummaryValues | models/template_render_interceptor.py:41-84 | the orders and values are those SafeValuesOutcome gives for the old orders |
| TemplateRenderInterceptor.SafeValuesOutcome | models/template_render_interceptor.py:41-84 | a foreign value under the order key gives the minimal values and changes nothing; otherwise an existing order is repaired and kept, else a safe order is created iff a price list and a customer exist, and the order's total and currency are given when its price list has one; every other entry of the values is kept |
| TemplateRenderInterceptor.Render | models/template_render_interceptor.py:10-39 | the cart summary is rendered with the safe values SafeValuesOutcome gives, and the fallback HTML replaces a raising parent, so it never raises; any other template is rendered by the parent with unchanged values |
| TemplateRenderInterceptor.EnsureCartSummaryNeverFails | models/template_render_interceptor.py:204-219 | reports success |
| SafeCartSummaryFix.ReadMany2one | models/safe_cart_summary_fix.py:45 | reading a many2one field gives a record set, set or empty |
| SafeCartSummaryFix.IdentityGuardNeverHolds | models/safe_cart_summary_fix.py:45 | no field read is identical to `False` or `None` |
| SafeCartSummaryFix.AssignMissingPricelist | models/safe_cart_summary_fix.py:42-47 | every order without a price list receives the given one; the others are kept |
| SafeCartSummaryFix.AssignedOrdersHavePricelists | models/safe_cart_summary_fix.py:42-47 | with an existing price list to give, no order is left without one |
| SafeCartSummaryFix.AssignIsIdempotent | models/safe_cart_summary_fix.py:42-47 | assigning twice is assigning once, and assigning nothing changes nothing |
| SafeCartSummaryFix.AssignWithoutMissing | models/safe_cart_summary_fix.py:19-25 | the orders are unchanged when none lacks a price list |
| SafeCartSummaryFix.CountWithoutPricelist | models/safe_cart_summary_fix.py:42-47 | the number of corrected orders is at most the number of orders, and 0 iff none lacks a price list |
| SafeCartSummaryFix.WriteMissingPricelists | models/safe_cart_summary_fix.py:42-47 | the write loop leaves the orders as AssignMissingPricelist says and counts the corrected ones; no price list or partner changes |
| SafeCartSummaryFix.AssignWhenGuardWritesNothing | models/safe_cart_summary_fix.py:45 | the loop guarded by `is False or is None` writes nothing |
| SafeCartSummaryFix.SafeFixAsWritten | models/safe_cart_summary_fix.py:11-62 | as written, the orders are never changed, yet success is reported whenever an active price list exists |
| SafeCartSummaryFix.SafeFixAsWrittenLeavesOrderBroken | models/safe_cart_summary_fix.py:45 | an order without a price list stays without one next to an active price list, while success is reported |
| SafeCartSummaryFix.EnsureWorksAsWritten | models/safe_cart_summary_fix.py:65-116 | as written, the orders are unchanged and success is always reported |
| SafeCartSummaryFix.SafeContextAsWritten | models/safe_cart_summary_fix.py:119-154 | as written, the current order is handed out unchanged even without a price list |
| SafeCartSummaryFix.SafeContextAsWrittenHandsOutBrokenOrder | models/safe_cart_summary_fix.py:134 | an order without a price list is handed out although an active price list exists |
| SafeCartSummaryFix.SafeFixCartSummaryOnly | models/safe_cart_summary_fix.py:11-62 | corrected guard: orders without a price list get the first active one; success iff none lacked one or such a price list exists; afterwards none lacks one; price lists untouched |
| SafeCartSummaryFix.EnsureCartSummaryWorks | models/safe_cart_summary_fix.py:65-116 | corrected guard: the same assignment, and success is always reported |
| SafeCartSummaryFix.SafeContext | models/safe_cart_summary_fix.py:119-154 | corrected guard: the current order gets a price list when it lacks one; it is handed out iff it then has one |
| SafeCartSummaryFix.PreventCartSummaryError | models/safe_cart_summary_fix.py:157-176 | the corrected repair's result and effect |
| SafeCartSummaryFix.EmergencyCartSummaryFixSafe | models/safe_cart_summary_fix.py:179-195 | both corrected repairs in turn: the orders get the first active price list, and success is reported |
| DisableAggressiveFixes.DisableAggressiveFixesFlag | models/disable_aggressive_fixes.py:11-18 | reports success |
| DisableAggressiveFixes.AssignWhenNoneWritesNothing | models/disable_aggressive_fixes.py:56 | the loop guarded by `is None` writes nothing |
| DisableAggressiveFixes.MinimalFixAsWritten | models/disable_aggressive_fixes.py:21-74 | as written, the orders are never changed, yet success is reported whenever an active price list exists |
| DisableAggressiveFixes.MinimalFixAsWrittenLeavesOrderBroken | models/disable_aggressive_fixes.py:56 | an order without a price list stays without one next to an active price list |
| DisableAggressiveFixes.EmergencyCartSummaryFixDisabled | models/disable_aggressive_fixes.py:77-96 | the corrected minimal repair: orders without a price list get the first active one; success as SafeFixCartSummaryOnly |
| DisableAggressiveFixes.PreventAnyPricelistModifications | models/disable_aggressive_fixes.py:99-118 | only reads the price lists, and reports success |
| ErrorHandler.EnvRef | models/website_sale_error_handler.py:57 | `env.ref` finds the record iff it exists; otherwise it raises |
| ErrorHandler.DefaultCurrencyAsWritten | models/website_sale_error_handler.py:49-80 | as written: PEN when it exists; otherwise nothing, because the PEN lookup raises |
| ErrorHandler.DefaultCurrency | models/website_sale_error_handler.py:56-75 | intended: PEN, else USD, else the first currency |
| ErrorHandler.DefaultCurrencyExists | models/website_sale_error_handler.py:56-75 | the default currency is an existing one, and it is missing iff there are no currencies |
| ErrorHandler.DefaultCurrencyAsWrittenMissesUsd | models/website_sale_error_handler.py:57-63 | without PEN but with USD, the lookup as written finds nothing where the intended one finds USD |
| ErrorHandler.PricelistsAfterDefault | models/website_sale_error_handler.py:11-47 | a default PEN price list is created iff none is active and PEN exists |
| ErrorHandler.DefaultPricelistId | models/website_sale_error_handler.py:11-47 | the returned price list exists and is active; none iff no active price list and no PEN |
| ErrorHandler.DefaultPricelistIsStable | models/website_sale_error_handler.py:11-47 | a second lookup creates nothing and returns the same price list |
| ErrorHandler.GetDefaultPricelist | models/website_sale_error_handler.py:11-47 | the method's effect and result are the two functions above; orders and partners are unchanged |
| ErrorHandler.FilledVals | models/website_sale_error_handler.py:82-135 | each missing reference of the created order is defaulted; each given one is kept |
| ErrorHandler.CreatedOrderIsComplete | models/website_sale_error_handler.py:82-135 | a created order has a price list and a partner and keeps every truthy value |
| ErrorHandler.CreateSucceedsWithFallbacks | models/website_sale_error_handler.py:82-135 | creation succeeds whenever partner 1 and a currency exist, and a price list exists or PEN does to create one in |
| ErrorHandler.FillCreateVals | models/website_sale_error_handler.py:89-117 | the filled values equal FilledVals; the default price list is created only when the caller gave none |
| ErrorHandler.Create | models/website_sale_error_handler.py:82-135 | the `create` override's effect and result equal its outcome function; partners are unchanged |
| ErrorHandler.DefaultedWriteVals | models/website_sale_error_handler.py:137-178 | a present but falsy key is replaced by its default; truthy keys and absent keys are kept |
| ErrorHandler.WriteKeepsTruthyValues | models/website_sale_error_handler.py:137-178 | a write with only truthy values reaches the ORM unchanged |
| ErrorHandler.ClearedPricelistIsReplaced | models/website_sale_error_handler.py:137-178 | clearing an order's price list never leaves it without one when a default exists |
| ErrorHandler.DefaultWriteVals | models/website_sale_error_handler.py:144-156 | the defaulted values equal DefaultedWriteVals; the default price list is created only when the caller clears it |
| ErrorHandler.Write | models/website_sale_error_handler.py:137-178 | the `write` override's effect and result equal its outcome function |
| ErrorHandler.EnsurePricelistExists | models/website_sale_error_handler.py:180-208 | the order, the price lists and the result are those PricelistRepair gives for the old ones; no other order changes |
| ErrorHandler.PricelistRepair | models/website_sale_error_handler.py:180-208 | a missing price list becomes the default one, a set one is kept; a price list without a currency is given the default currency; success iff the order then has a price list with a currency; no other price list changes |
| ErrorHandler.EnsureOrderValidity | models/website_sale_error_handler.py:210-246 | the order, the price lists and the result are those ValidityRepair gives for the old ones; no other order changes |
| ErrorHandler.ValidityRepair | models/website_sale_error_handler.py:210-246 | after the price list step, a missing currency becomes the default currency and a missing partner the first customer, stopping at the first step that fails; success iff the order is then complete |
| ErrorHandler.ValidityRepairIsIdempotent | models/website_sale_error_handler.py:210-246 | repairing an order the repair reported valid changes nothing |
| ErrorHandler.GetOrderForDisplay | models/website_sale_error_handler.py:248-267 | an existing order id is returned with the order and price lists as ValidityRepair leaves them; a missing one gives none and changes nothing |
| ErrorHandler.CreateDummyOrderForDisplay | models/website_sale_error_handler.py:269-290 | the temporary order is created iff partner 1, some currency and some price list (or PEN) exist, with the default price list and currency (else 1) and partner 1; nothing else changes but the default price list |
| ErrorHandler.DummyOrderOutcome | models/website_sale_error_handler.py:269-290 | the create override on the temporary order succeeds exactly when partner 1, a currency and a price list (or PEN) exist, and appends that very order |
| ErrorHandler.SafePricelistCurrency | models/website_sale_error_handler.py:292-315 | the order's price-list currency when there is one, otherwise the default currency |
| ErrorHandler.SafeOrderAmount | models/website_sale_error_handler.py:317-334 | the order's total, 0 without an order |
| CartSummaryErrorFix.WithCurrencyWhereUsed | models/cart_summary_error_fix.py:50-72 | every price list without a currency that an order uses gets the default currency; the others are unchanged; names and active flags are kept |
| CartSummaryErrorFix.UsedPricelistsHaveCurrency | models/cart_summary_error_fix.py:50-72 | afterwards every order's price list has a currency |
| CartSummaryErrorFix.WriteCurrencyOnUsedPricelists | models/cart_summary_error_fix.py:62-72 | the currency loop leaves the price lists as WithCurrencyWhereUsed says; orders and partners are unchanged |
| CartSummaryErrorFix.WithDefaultPricelist | models/cart_summary_error_fix.py:26-38 | a PEN (or id 1) price list is created iff none is active |
| CartSummaryErrorFix.FixCartSummaryTemplateError | models/cart_summary_error_fix.py:11-78 | success iff an active price list or a currency exists; then no order is left without a price list, and used price lists get a currency; failure changes nothing |
| CartSummaryErrorFix.GainsCurrencyKeepsFirstActive | models/cart_summary_error_fix.py:105-111 | writing currencies on price lists does not change which one is the first active |
| CartSummaryErrorFix.GainsCurrencyKeepsComplete | models/cart_summary_error_fix.py:105-111 | complete orders stay complete while price lists gain currencies |
| CartSummaryErrorFix.SecureStep | models/cart_summary_error_fix.py:92-135 | one order's pass keeps every set field and only adds currencies to price lists; with defaults available the order becomes complete |
| CartSummaryErrorFix.SafetyPass | models/cart_summary_error_fix.py:89-138 | the pass over all orders keeps their number and every set field, and only adds currencies to price lists |
| CartSummaryErrorFix.SafetyPassCompletes | models/cart_summary_error_fix.py:89-138 | with an active price list, PEN or USD, and a customer, every order is complete after the pass |
| CartSummaryErrorFix.SafetyPassSnoc | models/cart_summary_error_fix.py:92 | the pass over one more order is the pass over the prefix, then that order's step |
| CartSummaryErrorFix.CompleteOrderIsUntouched | models/cart_summary_error_fix.py:95-133 | a complete order goes through the pass unchanged |
| CartSummaryErrorFix.SecurePricelist | models/cart_summary_error_fix.py:94-110 | the order's price list and that price list's currency end as SecureStep says; nothing else changes |
| CartSummaryErrorFix.SecureCurrencyAndPartner | models/cart_summary_error_fix.py:112-132 | the order's currency and partner end as SecureStep says; price lists and partners are unchanged |
| CartSummaryErrorFix.SecureOrder | models/cart_summary_error_fix.py:93-133 | one order's pass leaves that order and the price lists as SecureStep says; no other order changes |
| CartSummaryErrorFix.RunSafetyPass | models/cart_summary_error_fix.py:89-138 | the loop over all orders leaves orders and price lists as SafetyPass says |
| CartSummaryErrorFix.EnsureCartSummarySafety | models/cart_summary_error_fix.py:81-142 | the safety pass's effect, success, set fields kept, the first active price list unchanged, completeness under the defaults |
| CartSummaryErrorFix.FindOrCreateSafePricelist | models/cart_summary_error_fix.py:153-164 | the first active price list, else a new PEN (or id 1) price list; none exactly when no price list is active and no currency exists |
| CartSummaryErrorFix.FindOrCreateCustomer | models/cart_summary_error_fix.py:170-181 | the first customer, else a new default customer, which then is the first customer |
| CartSummaryErrorFix.CreateSafeOrderForCartSummary | models/cart_summary_error_fix.py:145-199 | creates an order iff a currency exists, after creating a price list and customer if missing; the created order has all three references |
| CartSummaryErrorFix.DummyCartSummaryData | models/cart_summary_error_fix.py:240-268 | no order and a zero total, with PEN or USD, the first active price list and the first partner |
| CartSummaryErrorFix.SafeDataOf | models/cart_summary_error_fix.py:220-233 | the order's own fields; its price list's currency when there is one, else PEN |
| CartSummaryErrorFix.CartSummarySafeData | models/cart_summary_error_fix.py:202-237 | the dummy data iff there is no current order and no currency; otherwise an order's safe data |
| CartSummaryErrorFix.TemplateErrorRepair | models/cart_summary_error_fix.py:11-78 | what the store-wide repair leaves: nothing changed when no price list is active and there is no currency; otherwise an active price list exists, every order has a price list, and an order's own price list is kept |
| CartSummaryErrorFix.RepairUnfolds | models/cart_summary_error_fix.py:11-78 | the repair's result is the order write followed by the currency write of FixCartSummaryTemplateError |
| CartSummaryErrorFix.FixThenSecure | models/cart_summary_error_fix.py:271-284 | the store is the safety pass over what TemplateErrorRepair leaves; with an active price list or a currency, an active price list remains and no order is left without a price list |
| CartSummaryErrorFix.AppendSafeOrder | models/cart_summary_error_fix.py:282-283 | after the repair the safe order is appended iff a currency exists, on the first active price list, the default currency and the first customer, leaving the price lists as they are and every order priced |
| CartSummaryErrorFix.FixCartSummaryImmediately | models/cart_summary_error_fix.py:271-294 | an order is returned iff a currency exists; the price lists are those of the safety pass over TemplateErrorRepair, and the orders are those too, followed by the new safe order when one is returned; no order then lacks a price list |
| AutoCartSummaryFix.PricelistStep | models/auto_cart_summary_fix.py:76-93 | the price-list step succeeds iff the order has a price list, one is active, or a currency exists; price lists are only appended to |
| AutoCartSummaryFix.LaterSteps | models/auto_cart_summary_fix.py:95-136 | the currency and partner steps keep set fields and complete the order when a currency exists; records only grow |
| AutoCartSummaryFix.FixSingle | models/auto_cart_summary_fix.py:68-142 | the single-order repair: success as PricelistStep; set fields kept; complete when a currency exists; records only grow, by at most one price list and one partner |
| AutoCartSummaryFix.GrowsKeepsComplete | models/auto_cart_summary_fix.py:95-105 | a complete order stays complete while the records grow |
| AutoCartSummaryFix.FixSingleOrderForCartSummary | models/auto_cart_summary_fix.py:68-142 | the method's effect on the store equals FixSingle |
| AutoCartSummaryFix.RepairOrderKeepingOthers | models/auto_cart_summary_fix.py:51-53 | one turn of the loop: the repaired order keeps its set fields and is complete when a currency exists; other orders are untouched and stay complete; records only grow |
| AutoCartSummaryFix.EnsureCartSummaryAlwaysWorks | models/auto_cart_summary_fix.py:33-65 | success; orders that were not problematic are unchanged; set fields are kept; with a currency every problematic order becomes complete and no order is problematic any more; records only grow |
| AutoCartSummaryFix.GrowsKeepsUnproblematic | models/auto_cart_summary_fix.py:39-43 | an order that is not problematic stays so while price lists only gain currencies |
| AutoCartSummaryFix.CreateBackupOrderForCartSummary | models/auto_cart_summary_fix.py:145-165 | the backup order on the ids 1, created iff those records exist |
| AutoCartSummaryFix.FirstCompleteOrder | models/auto_cart_summary_fix.py:176-185 | the lowest id of a complete order, 0 iff there is none |
| AutoCartSummaryFix.GetAnyWorkingOrderForCartSummary | models/auto_cart_summary_fix.py:168-208 | the first complete order, with nothing changed; else a new order with all three references, which exists iff a currency exists |
| AutoCartSummaryFix.AutoFixCartSummaryOnLoad | models/auto_cart_summary_fix.py:11-30 | an order is returned iff a currency exists, and it is the new safe order with all references; with a currency no order is left without a price list |
| AutoCartSummaryFix.PreventCartSummaryErrors | models/auto_cart_summary_fix.py:211-233 | success iff the backup order could be created, and it is then the last order; the earlier orders keep their set fields, the unproblematic ones are unchanged, and with a currency none is problematic any more |
| AutoCartSummaryFix.EmergencyCartSummaryFix | models/auto_cart_summary_fix.py:236-260 | the backup order is returned iff its records exist; with a currency every order but the backup orders ends up unproblematic |
| WebsiteSaleTemplateHandler.DefaultOrderVals | models/website_sale_template_handler.py:40-74 | the default order always has all three references: the found price list, currency and customer when they exist, else id 1 |
| WebsiteSaleTemplateHandler.CreateDefaultOrder | models/website_sale_template_handler.py:40-74 | the default order is created iff a price list, a partner and a currency exist; no price list or partner changes |
| WebsiteSaleTemplateHandler.CreateEmergencyOrder | models/website_sale_template_handler.py:76-100 | the emergency order on ids 1 is created iff those records exist |
| WebsiteSaleTemplateHandler.EnsureOrderTemplateSafety | models/website_sale_template_handler.py:102-152 | the order gets the per-order safety step; set fields are kept; no partner or price list is created; with defaults the order becomes complete |
| WebsiteSaleTemplateHandler.SaleGetOrder | models/website_sale_template_handler.py:10-38 | the lookup's order, or a forced default order, goes through the safety step; the emergency order when the lookup raises; nothing otherwise |
| WebsiteSaleTemplateHandler.SecureReturnedOrder | models/website_sale_template_handler.py:21-30 | the returned order, else with force_create a new default order, is left as the safety step says; with every default available it is complete |
| WebsiteSaleTemplateHandler.GetSafeCartSummaryData | models/website_sale_template_handler.py:154-187 | the store ends as SafeOrderOutcome, the second safety pass changing nothing; an order's data is returned iff the lookup gave an order or a new one can be created (some price list, partner and currency), the dummy data otherwise; the order's data has all references under the defaults |
| WebsiteSaleTemplateHandler.FixCartSummaryError | models/website_sale_template_handler.py:230-260 | the order SafeOrderOutcome gives is kept with a non-empty name; success iff the lookup gave an order or a new one could be created; failure changes nothing |
| WebsiteSaleTemplateHandler.SecureStepIsIdempotent | models/website_sale_template_handler.py:102-152 | a second safety pass changes nothing |
| WebsiteSaleTemplateHandler.SafeOrderOutcome | models/website_sale_template_handler.py:230-287 | the lookup's order, else its emergency or default order, else a new default order, after the safety pass; there is one iff the lookup gave one or a price list, a partner and a currency exist; set fields are kept; with every default available it is complete |
| WebsiteSaleTemplateHandler.Corrected | models/website_sale_template_handler.py:249-251 | the written-back order has a non-empty name, its own when it had one |
| WebsiteSaleTemplateHandler.SafeOrder | models/website_sale_template_handler.py:236-246 | the orders, price lists and order are those SafeOrderOutcome gives |
| WebsiteSaleTemplateHandler.HandleTemplateError | models/website_sale_template_handler.py:217-228 | the cart summary gets FixCartSummaryError's repair and result; any other template gives False and changes nothing |
| WebsiteSaleTemplateHandler.GetWebsiteSaleOrderSafe | models/website_sale_template_handler.py:262-287 | the orders, price lists and order are those SafeOrderOutcome gives |
| SaleOrderPartnerGuard.PartnerProblemOf | models/sale_order_override.py:22-42 | the first failing check: no partner, the website's partner, no name, no e-mail |
| SaleOrderPartnerGuard.CheckPartnerAssignment | models/sale_order_override.py:16-42 | valid iff the partner is set, is not the website's, and has a name and an e-mail |
| SaleOrderPartnerGuard.WithSessionPartner | models/sale_order_override.py:53-57 | a missing or falsy `partner_id` takes a truthy session partner; a truthy one is kept; no other key changes |
| SaleOrderPartnerGuard.FillSessionPartner | models/sale_order_override.py:44-66 | `create` fills the caller's `vals` in place as WithSessionPartner says |
| SaleOrderPartnerGuard.SessionPartnerIsIdempotent | models/sale_order_override.py:53-57 | filling twice is filling once |
| SaleOrderPartnerGuard.WithoutWebsitePartner | models/sale_order_override.py:76-86 | the written values never assign the website's partner; the key is dropped iff they did; every other key is kept |
| SaleOrderPartnerGuard.DropWebsitePartner | models/sale_order_override.py:68-93 | `write` filters the caller's `vals` in place as WithoutWebsitePartner says |
| SaleOrderPartnerGuard.WrittenPartnerIsNotWebsitePartner | models/sale_order_override.py:76-86 | a partner that passes the filter never fails the check for being the website's |
| SaleOrderPartnerGuard.ActionConfirm | models/sale_order_override.py:95-106 | confirmation proceeds iff the partner check passes, otherwise raises the fixed message |
| SaleOrderPartnerGuard.WithOrderPartner | models/sale_order_override.py:108-124 | the order's partner is added to the transaction values only when the key is absent |
| SaleOrderPartnerGuard.CreatePaymentTransaction | models/sale_order_override.py:108-124 | raises with the values untouched unless the check passes; otherwise adds the order's partner in place |
| SaleOrderPartnerGuard.TransactionPartnerIsValid | models/sale_order_override.py:108-124 | a transaction without a caller-chosen partner goes to a valid customer |
| SaleOrderPartnerGuard.OnchangePartnerId | models/sale_order_override.py:126-147 | a warning iff the selected partner is the website's |
| SaleOrderPartnerGuard.OnchangeWarnsOnWebsitePartner | models/sale_order_override.py:126-147 | the onchange warns exactly when the check fails for being the website's partner, and then confirmation raises |
| PaymentOverride.EnsureValidPartner | controllers/payment_override.py:16-44 | no order gives "No hay pedido válido"; otherwise the verdict is the sale order's partner check, and the message names the first failing check |
| PaymentOverride.AcquirerNumber | controllers/payment_override.py:73-80 | `int(acquirer_id)` of the posted value, None where it raises |
| PaymentOverride.PaymentTransaction | controllers/payment_override.py:46-133 | the first failing guard decides the error: order and lines, then partner, then a missing, malformed or unknown acquirer; a transaction is created iff every guard passes, and it carries the order's reference, total, currency and partner and the requested acquirer |
| PaymentOverride.CreatedTransactionHasValidPartner | controllers/payment_override.py:57-95 | a transaction is created only for a real customer with a name and an e-mail |
| PaymentOverride.Payment | controllers/payment_override.py:135-156 | the parent's page iff there is an order with lines and a valid partner; otherwise the cart or the address form |
| PaymentOverride.TransactionImpliesPaymentPage | controllers/payment_override.py:46-156 | whenever a transaction can be created, the payment page is shown |
| PaymentOverride.PaymentValidate | controllers/payment_override.py:158-180 | the parent's page iff there is an order and the parent does not raise; otherwise the cart |
| PaymentEditFix.WithFromPayment | static/src/js/payment_edit_fix.js:33-35 | the href, then '&' when it already has a query string or '?' otherwise, then `from_payment=1`; the original href is a prefix |
| PaymentEditFix.FixLink | static/src/js/payment_edit_fix.js:25-76 | a link changes iff the pass targets it and its non-empty href lacks `from_payment=1`; text and icon are kept |
| PaymentEditFix.FixAll | static/src/js/payment_edit_fix.js:25-39 | one pass applies FixLink to every anchor |
| PaymentEditFix.ThreePassesOnLink | static/src/js/payment_edit_fix.js:25-76 | the three passes rewrite a link at most once, exactly when its href mentions 'checkout', or belongs to an edit link and mentions 'address' |
| PaymentEditFix.FixEditLinksPointwise | static/src/js/payment_edit_fix.js:25-76 | the fixed page is the expected rewrite of each link |
| PaymentEditFix.FixEditLinksIsIdempotent | static/src/js/payment_edit_fix.js:25-76 | fixing a fixed page changes nothing |
| PaymentEditFix.FixEditLinksKeepsOriginalHref | static/src/js/payment_edit_fix.js:25-76 | each link keeps its text and icon; a missing or empty href is never changed; a rewritten href extends the original and contains `from_payment=1` |
| PaymentEditFix.RunPass | static/src/js/payment_edit_fix.js:25-39 | the in-place loop over the anchors equals one pass |
| PaymentEditFix.FixEditLinksOn | static/src/js/payment_edit_fix.js:25-76 | the three in-place passes equal the fix on the page's anchors |
| PaymentEditFix.Start | static/src/js/payment_edit_fix.js:10-19 | the anchors are fixed on `/shop/payment` and left alone on every other page |

## Left out

- Logging, HTTP rendering, redirects and routing: only the decision each route takes is modelled. This includes the POST branch of the address route (controllers/checkout.py:52-97), which saves the partner and re-attaches it to the order.
- Odoo's method resolution order: several files override the same methods (`sale_get_order`, `create`, `write`, `_checkout_form_save`), and `models/__init__.py` imports only some of them. Each override is modelled on its own, given what the parent returns.
- `sale_order_web.py`, the always-true VAT overrides, the migrations and the external scripts are not part of this model.
- Float parsing in `_validate_order_line_data` and `_validate_order_amount` (models/sale_validation_override.py:217-307): totals are abstract numbers.
- Currencies have no active flag, and an order's `currency_id` is an independent field: the model keeps only the number of currencies and the PEN/USD ids.
- `env.ref` returns the empty reference instead of raising, except in `ErrorHandler.DefaultCurrencyAsWritten`, where the raise decides the result.
- Transactions are not rolled back: an exception swallowed by a `try/except` leaves the writes made before it in place, and the model keeps them the same way.
- `website_id` on created orders is not modelled; no property depends on it.
- ErrorHandler.Create: the `create` of the ORM for arbitrary other keys is not modelled; only the references the override defaults are.
- The partner `create` override's post-check on the empty record set only logs, so it is not modelled.
- PaymentOverride.PaymentTransaction: what happens after the transaction is created (the acquirer's test state, the s2s flow, the redirect and the exception handler at controllers/payment_override.py:131-133) is not modelled.
- PaymentOverride.AcquirerNumber: JSON values other than integers and strings (floats, booleans), and underscores inside Python integers, are not modelled.
- `_onchange_vat_document_type` (models/res_partner.py:70-76) only recomputes the type, which ResPartner.ComputeDocumentType covers.
- The loop and printing of `test_checkout_scenarios` are left out; each scenario is one call of VatMapping.SimulateCheckout.
- `action_confirm` on several orders at once (Odoo's singleton error) is not modelled: one order at a time.
- PaymentEditFix.FixLink: jQuery `:contains` is matched as a literal substring, and an edit icon must be a direct child of its link.
- The widget's `trim()`/`toLowerCase()` and Python's `strip()`/`lower()` are modelled over ASCII only.
- Common.Strip: Python's `strip()` also removes the separators `\x1c`-`\x1f`, `\x85` and the Unicode spaces; the model removes space, tab, line feed, carriage return, vertical tab and form feed only.
- Common.AllDigits, Common.ParseInt and ResPartner.ClassifyVat: Python's `isdigit()` and `int()` also accept non-ASCII digits (Arabic-Indic, full-width and others); the model accepts `0`-`9` only.
- Common.ParseInt: `int()` also accepts underscores between digits (`"1_000"`); the model rejects them.
- Checkout.RequestedPartnerId: inherits Common.ParseInt's ASCII-only digits and its rejection of underscores.
- OrderStore.FirstActivePricelist, OrderStore.FirstCustomer and AutoCartSummaryFix.FirstCompleteOrder: `search(..., limit=1)` returns the first record in the model's default order (price lists by sequence, then id descending; partners by display name; sale orders by date, then id descending); the model takes the lowest id instead. The same holds for the records CartSummaryErrorFix.DummyCartSummaryData picks and for the records the repairs assign, whose names follow the order they were found for.
- OrderStore.FirstCustomer: the searches on `customer = True` (models/website_sale_error_handler.py:110,235, models/cart_summary_error_fix.py:128,171, models/template_error_interceptor.py:53,109, models/template_render_interceptor.py:104,159, models/website_sale_order_guarantee.py:101,157, models/auto_cart_summary_fix.py:122, models/website_sale_template_handler.py:55,143) and the creations with `'customer': True` (models/cart_summary_error_fix.py:178, models/auto_cart_summary_fix.py:129) treat `customer` as a stored boolean of `res.partner`. Odoo 13 replaced that field by `customer_rank` and this module does not define it, so on such a version each of those calls raises; the model does not capture that and keeps `customer` as a flag of every partner record.
- CartSummaryErrorFix.DummyCartSummaryData: `res.partner.search([], limit=1)` skips archived partners; partners have no active flag in the model, so it takes partner 1 whenever one exists.
- ResPartner.DetectedLabel: for the four selection keys the VAT classification never produces, the label is Python's `title()` of the key written out as a constant ("Passport", "Foreign_Id", "Diplomatic", "Non_Domiciled"); `str.title()` itself is not modelled.

## Findings

| source | as written | input that shows it | evidently intended | confidence | as-written member | corrected member |
|---|---|---|---|---|---|---|
| controllers/checkout.py:46 | `return Forbidden()` with `Forbidden` never imported | partner 3 logged in, `partner_id=7` outside its company | HTTP 403 | high, not executed | Checkout.AddressModeCounterexample | Checkout.AddressMode |
| controllers/checkout.py:216 | `int(all_values.get('partner_id', 0))` raises ValueError before `partner_id` is bound, and the handler's log line reads `partner_id` | an edit posted with `partner_id` empty (or any text `int()` rejects) | the ValueError escapes | high, not executed | Checkout.EditPartnerSaveCounterexample | Checkout.EditPartnerSave |
| controllers/checkout.py:210 | `return Forbidden()` in the edit double check, `Forbidden` never imported | edit of partner 7 on an order of partner 3 owning {3, 4} | HTTP 403 | high, not executed | Checkout.EditAccessCounterexample | Checkout.EditAccessCheck |
| models/safe_cart_summary_fix.py:45 | `order.pricelist_id is False or order.pricelist_id is None` | one order without a price list, one active price list | assign the price list when it is missing (`not order.pricelist_id`) | high, not executed | SafeCartSummaryFix.SafeFixAsWrittenLeavesOrderBroken | SafeCartSummaryFix.SafeFixCartSummaryOnly |
| models/safe_cart_summary_fix.py:88 | the same identity guard in the second repair | one order without a price list, one active price list | assign the price list when it is missing | high, not executed | SafeCartSummaryFix.EnsureWorksAsWritten | SafeCartSummaryFix.EnsureCartSummaryWorks |
| models/safe_cart_summary_fix.py:134 | the same identity guard on the current order | the current order without a price list, one active price list | give the current order a price list | high, not executed | SafeCartSummaryFix.SafeContextAsWrittenHandsOutBrokenOrder | SafeCartSummaryFix.SafeContext |
| models/disable_aggressive_fixes.py:56 | `order.pricelist_id is None` | one order without a price list, one active price list | assign the price list when it is missing | high, not executed | DisableAggressiveFixes.MinimalFixAsWrittenLeavesOrderBroken | DisableAggressiveFixes.EmergencyCartSummaryFixDisabled |
| controllers/checkout.py:160 | `import time` only inside `if not checkout.get('email')`, while `time.time()` is also used on the clash path at line 195 | an e-mail given, `create` returning the website's public partner | re-create the partner under `unique_<id>_<now>@temp.local` | high, not executed | Checkout.NewPartnerSaveCounterexample | Checkout.NewPartnerSave |
| models/website_sale_error_handler.py:57 | `env.ref('base.PEN')` raises when PEN is missing, so the USD fallback is unreachable | no PEN, USD as currency 2 | PEN, else USD, else the first currency | medium, not executed | ErrorHandler.DefaultCurrencyAsWrittenMissesUsd | ErrorHandler.DefaultCurrency |
