/** The payment page's edit-link fix: on `/shop/payment` it rewrites, in
    place, the href of every edit link that leads back to the checkout or
    address form so that it carries `from_payment=1`. Three passes run in
    turn over the page's anchors: links whose href mentions 'checkout',
    links whose text says "Editar"/"Edit", and links holding an edit icon;
    the last two only touch hrefs mentioning 'checkout' or 'address'. */
module PaymentEditFix {
  import opened Common

  const FromPayment := "from_payment=1"
  const PaymentPath := "/shop/payment"

  /** An anchor on the page: its href attribute (None when it has none), its
      text, and whether an edit icon (`i.fa-edit` or `i.fa-pencil`) is one of
      its direct children. */
  datatype Link = Link(href: Option<string>, text: string, editIcon: bool)

  /** JavaScript truthiness of the href attribute. */
  predicate HasHref(l: Link) {
    l.href.Some? && l.href.value != ""
  }

  /** The href with `from_payment=1` appended: after '&' when it already
      has a query string, after '?' otherwise. */
  function WithFromPayment(href: string): (r: string)
    ensures |r| == |href| + 1 + |FromPayment|
    ensures StartsWith(r, href)
    ensures r[|href|] == (if Contains(href, "?") then '&' else '?')
    ensures r[|href| + 1..] == FromPayment
    ensures Contains(r, FromPayment)
  {
    var base := href + [if Contains(href, "?") then '&' else '?'];
    ContainsSuffix(base, FromPayment);
    assert (base + FromPayment)[..|href|] == href;
    base + FromPayment
  }

  /** The three passes of `_fixEditLinks`, in the order they run. */
  datatype Pass = CheckoutLinks | TextEditLinks | IconEditLinks

  predicate LeadsToForm(href: string) {
    Contains(href, "checkout") || Contains(href, "address")
  }

  /** Whether a pass selects the link and its href mentions the right form. */
  predicate Targeted(l: Link, p: Pass) {
    match p
    case CheckoutLinks => l.href.Some? && Contains(l.href.value, "checkout")
    case TextEditLinks =>
      (Contains(l.text, "Editar") || Contains(l.text, "Edit")) && l.href.Some? && LeadsToForm(l.href.value)
    case IconEditLinks => l.editIcon && l.href.Some? && LeadsToForm(l.href.value)
  }

  /** One pass on one link: a targeted link with a non-empty href that
      lacks `from_payment=1` gets it appended; any other link is left
      alone. */
  function FixLink(l: Link, p: Pass): (r: Link)
    ensures r.text == l.text && r.editIcon == l.editIcon
    ensures r.href.Some? <==> l.href.Some?
    ensures r != l <==> Targeted(l, p) && HasHref(l) && !Contains(l.href.value, FromPayment)
    ensures r != l ==> r.href == Some(WithFromPayment(l.href.value))
  {
    if Targeted(l, p) && HasHref(l) && !Contains(l.href.value, FromPayment) then
      var h := WithFromPayment(l.href.value);
      assert |h| > |l.href.value|;
      l.(href := Some(h))
    else l
  }

  /** One pass over all the page's anchors. */
  function FixAll(links: seq<Link>, p: Pass): (r: seq<Link>)
    ensures |r| == |links|
    ensures forall i :: 0 <= i < |links| ==> r[i] == FixLink(links[i], p)
  {
    seq(|links|, i requires 0 <= i < |links| => FixLink(links[i], p))
  }

  /** `_fixEditLinks`: the three passes in turn. */
  function FixEditLinks(links: seq<Link>): seq<Link> {
    FixAll(FixAll(FixAll(links, CheckoutLinks), TextEditLinks), IconEditLinks)
  }

  /** The net effect on one link: an href is rewritten at most once, and
      exactly when it is non-empty, lacks `from_payment=1`, and either
      mentions 'checkout' or belongs to an edit link (by its text or its
      icon) and mentions 'address'. */
  predicate Rewritten(l: Link) {
    HasHref(l) && !Contains(l.href.value, FromPayment) &&
    (Contains(l.href.value, "checkout") ||
     ((Contains(l.text, "Editar") || Contains(l.text, "Edit") || l.editIcon) && Contains(l.href.value, "address")))
  }

  function Expected(l: Link): (r: Link)
    ensures !Rewritten(l) ==> r == l
    ensures Rewritten(l) ==> r == l.(href := Some(WithFromPayment(l.href.value)))
  {
    if Rewritten(l) then l.(href := Some(WithFromPayment(l.href.value))) else l
  }

  /** The three passes on one link leave it as `Expected` says. */
  lemma ThreePassesOnLink(l: Link)
    ensures FixLink(FixLink(FixLink(l, CheckoutLinks), TextEditLinks), IconEditLinks) == Expected(l)
  {
    var a := FixLink(l, CheckoutLinks);
    var b := FixLink(a, TextEditLinks);
    if a != l {
      assert Contains(a.href.value, FromPayment);
    } else if b != a {
      assert Contains(b.href.value, FromPayment);
    }
  }

  lemma FixEditLinksPointwise(links: seq<Link>)
    ensures |FixEditLinks(links)| == |links|
    ensures forall i :: 0 <= i < |links| ==> FixEditLinks(links)[i] == Expected(links[i])
  {
    forall i | 0 <= i < |links|
      ensures FixEditLinks(links)[i] == Expected(links[i])
    {
      ThreePassesOnLink(links[i]);
    }
  }

  /** Running the fix again changes nothing. */
  lemma FixEditLinksIsIdempotent(links: seq<Link>)
    ensures FixEditLinks(FixEditLinks(links)) == FixEditLinks(links)
  {
    var once := FixEditLinks(links);
    FixEditLinksPointwise(links);
    FixEditLinksPointwise(once);
    forall i | 0 <= i < |links|
      ensures Expected(once[i]) == once[i]
    {
      if Rewritten(links[i]) {
        assert Contains(once[i].href.value, FromPayment);
      }
    }
  }

  /** Every link keeps its text, its icon and whether it has an href; a
      missing or empty href is never changed, and a rewritten href starts
      with the original one and ends with `from_payment=1`. */
  lemma FixEditLinksKeepsOriginalHref(links: seq<Link>, i: nat)
    requires i < |links|
    ensures var l, r := links[i], FixEditLinks(links)[i];
      r.text == l.text && r.editIcon == l.editIcon &&
      (!HasHref(l) ==> r == l) &&
      (r.href.Some? <==> l.href.Some?) &&
      (r.href.Some? ==> StartsWith(r.href.value, l.href.value)) &&
      (r != l ==> Contains(r.href.value, FromPayment))
  {
    FixEditLinksPointwise(links);
  }

  /** One pass over the page's anchors, rewriting each href in place. */
  method RunPass(a: array<Link>, p: Pass)
    modifies a
    ensures a[..] == FixAll(old(a[..]), p)
  {
    for k := 0 to a.Length
      invariant forall i :: 0 <= i < k ==> a[i] == FixLink(old(a[i]), p)
      invariant forall i :: k <= i < a.Length ==> a[i] == old(a[i])
    {
      a[k] := FixLink(a[k], p);
    }
  }

  /** `_fixEditLinks` on the page's anchors. */
  method FixEditLinksOn(a: array<Link>)
    modifies a
    ensures a[..] == FixEditLinks(old(a[..]))
  {
    RunPass(a, CheckoutLinks);
    RunPass(a, TextEditLinks);
    RunPass(a, IconEditLinks);
  }

  /** `start`: the links are fixed only on the payment page. */
  method Start(pathname: string, a: array<Link>)
    modifies a
    ensures pathname == PaymentPath ==> a[..] == FixEditLinks(old(a[..]))
    ensures pathname != PaymentPath ==> a[..] == old(a[..])
  {
    if pathname == PaymentPath {
      FixEditLinksOn(a);
    }
  }
}
