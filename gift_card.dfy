/**
 * The gift card: a squircle tile whose backdrop is the given one or a gradient
 * chosen by hashing the gift's name, with the marketplace badge and a cart
 * toggle.
 */
module GiftCard {
  import opened Common
  import opened CardArt

  /** The eight backdrop gradients. */
  const BACKDROPS: seq<string> := [
    "radial-gradient(circle, rgb(95, 120, 73) 30%, rgb(60, 79, 59) 100%)",
    "radial-gradient(circle, rgb(221, 142, 111) 30%, rgb(183, 90, 96) 100%)",
    "radial-gradient(circle, rgb(131, 165, 133) 30%, rgb(80, 113, 80) 100%)",
    "radial-gradient(circle, rgb(167, 178, 192) 30%, rgb(110, 122, 140) 100%)",
    "radial-gradient(circle, rgb(122, 198, 186) 30%, rgb(70, 142, 132) 100%)",
    "radial-gradient(circle, rgb(186, 178, 162) 30%, rgb(135, 124, 108) 100%)",
    "radial-gradient(circle, rgb(100, 148, 237) 30%, rgb(62, 100, 186) 100%)",
    "radial-gradient(circle, rgb(216, 145, 175) 30%, rgb(175, 92, 126) 100%)"]

  const DROP_SHADOW: string := "0 6px 14px rgba(0,0,0,0.35)"

  /** The props the card reads; a number is given as the text React renders for it. */
  datatype Props = Props(
    name: Option<string>,
    image: Option<string>,
    provider: Option<string>,
    priceTon: string,
    priceUsd: Option<string>,
    inCart: bool,
    backdrop: Option<string>)

  /** The art square's centre: the gift's picture or a blank placeholder. */
  datatype Art = Picture(src: string) | Placeholder

  datatype View = View(
    background: string,
    art: Art,
    badge: ProviderBadge,
    usdLabel: Option<string>,
    /** The accent ring of a gift in the cart, in place of the drop shadow. */
    ringed: bool,
    shadow: Option<string>,
    /** The button shows a check mark rather than a cart. */
    checkIcon: bool)

  function Render(p: Props): (v: View)
    ensures v.background == Background(p.backdrop, p.name, BACKDROPS)
    ensures v.background in BACKDROPS || v.background == p.backdrop.value
    ensures v.art == (if p.image.Some? && p.image.value != "" then Picture(p.image.value) else Placeholder)
    ensures v.badge == CardArt.Badge(p.provider)
    ensures v.usdLabel.Some? <==> p.priceUsd.Some?
    ensures v.usdLabel.Some? ==> v.usdLabel.value == "$" + p.priceUsd.value
    ensures v.ringed <==> p.inCart
    ensures v.shadow.None? <==> p.inCart
    ensures v.shadow.Some? ==> v.shadow.value == DROP_SHADOW
    ensures v.checkIcon <==> p.inCart
  {
    View(
      Background(p.backdrop, p.name, BACKDROPS),
      if p.image.Some? && p.image.value != "" then Picture(p.image.value) else Placeholder,
      CardArt.Badge(p.provider),
      if p.priceUsd.Some? then Some("$" + p.priceUsd.value) else None,
      p.inCart,
      if p.inCart then None else Some(DROP_SHADOW),
      p.inCart)
  }

  /** Without an explicit backdrop, gifts with the same name share a gradient, and a nameless gift gets the first. */
  lemma BackdropByName(p: Props, q: Props)
    requires StringOr(p.backdrop, "") == "" && StringOr(q.backdrop, "") == ""
    ensures StringOr(p.name, "") == StringOr(q.name, "") ==> Render(p).background == Render(q).background
    ensures StringOr(p.name, "") == "" ==> Render(p).background == BACKDROPS[0]
  {
  }

  /** What a click on the cart button does: the toggle handler runs when given, and the card's own click does not. */
  datatype ClickEffect = ClickEffect(toggleCalls: nat, reachesCard: bool)

  function CartClick(hasHandler: bool): (e: ClickEffect)
    ensures !e.reachesCard
    ensures e.toggleCalls == (if hasHandler then 1 else 0)
  {
    ClickEffect(if hasHandler then 1 else 0, false)
  }
}
