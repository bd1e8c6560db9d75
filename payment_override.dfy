/** The payment controller's guards: `_ensure_valid_partner` runs the
    partner checks of the sale order in the same order and names the first
    that fails; `payment_transaction` answers with the first error among the
    order, its partner and the acquirer before it starts a transaction; the
    payment page and its validation send the customer back to the cart or
    the address form instead. */
module PaymentOverride {
  import opened Common
  import opened OrderStore
  import opened SaleOrderPartnerGuard

  const ValidPartnerMessage := "Partner válido"
  const NoOrderMessage := "No hay pedido válido"

  /** The message `_ensure_valid_partner` gives for the first failing check. */
  function ProblemMessage(p: PartnerProblem): (m: string)
    ensures m != ValidPartnerMessage && m != NoOrderMessage
  {
    match p
    case NoPartner => "No hay partner asignado"
    case WebsitePartner => "Partner inválido"
    case NoName => "Partner sin nombre"
    case NoEmail => "Partner sin email"
  }

  /** Whether the current order (None when there is none) may be paid by
      its partner.  The verdict on an existing order is the sale order's own
      partner check, and the message names the first check that fails. */
  function EnsureValidPartner(order: Option<SaleOrder>, partners: seq<PartnerRecord>, websitePartner: nat): (r: (bool, string))
    requires order.Some? ==> order.value.partner <= |partners|
    ensures r.0 <==> r.1 == ValidPartnerMessage
    ensures order.None? ==> r == (false, NoOrderMessage)
    ensures order.Some? ==> r.0 == CheckPartnerAssignment(order.value, partners, websitePartner)
    ensures order.Some? && !r.0 ==> r.1 == ProblemMessage(PartnerProblemOf(order.value, partners, websitePartner).value)
  {
    if order.None? then (false, NoOrderMessage)
    else match PartnerProblemOf(order.value, partners, websitePartner)
      case Some(p) => (false, ProblemMessage(p))
      case None => (true, ValidPartnerMessage)
  }

  /** Python `int(acquirer_id)` on the posted value: None where it raises
      ValueError. */
  function AcquirerNumber(v: Value): (r: Option<int>)
    ensures v.Int? ==> r == Some(v.i)
    ensures v.Str? ==> r == ParseInt(v.s)
  {
    match v
    case Int(i) => Some(i)
    case Str(s) => ParseInt(s)
  }

  /** What `payment_transaction` answers before the acquirer's own flow: an
      error message, or the transaction it creates. */
  datatype TransactionStart =
    | TxError(message: string)
    | TxCreated(acquirer: nat, reference: string, amount: real, currency: nat, partner: nat)

  /** `payment_transaction`: the first failing guard among (1) an order
      with lines, (2) its partner, (3) a posted acquirer id, (4) an id that
      reads as an integer, (5) an acquirer that exists, decides the error;
      otherwise a draft transaction for the order's partner. */
  function PaymentTransaction(order: Option<SaleOrder>, hasLines: bool, partners: seq<PartnerRecord>, websitePartner: nat,
                              acquirerId: Option<Value>, acquirers: nat): (r: TransactionStart)
    requires order.Some? ==> order.value.partner <= |partners|
    ensures order.None? || !hasLines ==> r == TxError(NoOrderMessage)
    ensures order.Some? && hasLines && !EnsureValidPartner(order, partners, websitePartner).0 ==>
      r == TxError(EnsureValidPartner(order, partners, websitePartner).1)
    ensures order.Some? && hasLines && EnsureValidPartner(order, partners, websitePartner).0 ==>
      (acquirerId.None? || !Truthy(acquirerId.value) ==> r == TxError("Acquirer no especificado")) &&
      (acquirerId.Some? && Truthy(acquirerId.value) && AcquirerNumber(acquirerId.value).None? ==> r == TxError("Acquirer_id inválido")) &&
      ((acquirerId.Some? && Truthy(acquirerId.value) && AcquirerNumber(acquirerId.value).Some? &&
        !(1 <= AcquirerNumber(acquirerId.value).value <= acquirers)) ==> r == TxError("Acquirer no válido"))
    ensures r.TxCreated? <==>
      order.Some? && hasLines && CheckPartnerAssignment(order.value, partners, websitePartner) &&
      acquirerId.Some? && Truthy(acquirerId.value) && AcquirerNumber(acquirerId.value).Some? &&
      1 <= AcquirerNumber(acquirerId.value).value <= acquirers
    ensures r.TxCreated? ==>
      r.partner == order.value.partner && r.reference == order.value.name &&
      r.amount == order.value.amountTotal && r.currency == order.value.currency &&
      r.acquirer == AcquirerNumber(acquirerId.value).value
  {
    if order.None? || !hasLines then TxError(NoOrderMessage)
    else
      var (valid, message) := EnsureValidPartner(order, partners, websitePartner);
      if !valid then TxError(message)
      else if acquirerId.None? || !Truthy(acquirerId.value) then TxError("Acquirer no especificado")
      else match AcquirerNumber(acquirerId.value)
        case None => TxError("Acquirer_id inválido")
        case Some(id) =>
          if 1 <= id <= acquirers then
            TxCreated(id, order.value.name, order.value.amountTotal, order.value.currency, order.value.partner)
          else TxError("Acquirer no válido")
  }

  /** A transaction is only ever created for a real customer: never the
      website's partner, and with a name and an e-mail. */
  lemma CreatedTransactionHasValidPartner(order: Option<SaleOrder>, hasLines: bool, partners: seq<PartnerRecord>,
                                          websitePartner: nat, acquirerId: Option<Value>, acquirers: nat)
    requires order.Some? ==> order.value.partner <= |partners|
    requires PaymentTransaction(order, hasLines, partners, websitePartner, acquirerId, acquirers).TxCreated?
    ensures var p := PaymentTransaction(order, hasLines, partners, websitePartner, acquirerId, acquirers).partner;
      p != 0 && p != websitePartner && partners[p - 1].name != "" && partners[p - 1].email != ""
  {
  }

  /** The page a shop route shows: a redirect, or the parent's page. */
  datatype Page = Redirect(url: string) | ParentPage

  /** `/shop/payment`: back to the cart without an order with lines, to the
      address form when the partner is not valid, else the parent's page. */
  function Payment(order: Option<SaleOrder>, hasLines: bool, partners: seq<PartnerRecord>, websitePartner: nat): (r: Page)
    requires order.Some? ==> order.value.partner <= |partners|
    ensures r == ParentPage <==> order.Some? && hasLines && CheckPartnerAssignment(order.value, partners, websitePartner)
    ensures order.None? || !hasLines ==> r == Redirect("/shop/cart")
    ensures order.Some? && hasLines && !CheckPartnerAssignment(order.value, partners, websitePartner) ==> r == Redirect("/shop/address")
  {
    if order.None? || !hasLines then Redirect("/shop/cart")
    else if !EnsureValidPartner(order, partners, websitePartner).0 then Redirect("/shop/address")
    else ParentPage
  }

  /** The payment page and the transaction agree: whenever a transaction can
      be created, the page is shown. */
  lemma TransactionImpliesPaymentPage(order: Option<SaleOrder>, hasLines: bool, partners: seq<PartnerRecord>,
                                      websitePartner: nat, acquirerId: Option<Value>, acquirers: nat)
    requires order.Some? ==> order.value.partner <= |partners|
    requires PaymentTransaction(order, hasLines, partners, websitePartner, acquirerId, acquirers).TxCreated?
    ensures Payment(order, hasLines, partners, websitePartner) == ParentPage
  {
  }

  /** `/shop/payment/validate`: back to the cart without an order or when
      the parent's validation raises, else the parent's page. */
  function PaymentValidate(hasOrder: bool, parentRaises: bool): (r: Page)
    ensures r == ParentPage <==> hasOrder && !parentRaises
    ensures r != ParentPage ==> r == Redirect("/shop/cart")
  {
    if !hasOrder then Redirect("/shop/cart")
    else if parentRaises then Redirect("/shop/cart")
    else ParentPage
  }
}
