/**
 * The item card: the simpler product tile. Its backdrop comes from a set of
 * six gradients by the same name hash as the gift card; a sold-out item is
 * dimmed, overlaid with a banner and loses its add button.
 */
module ItemCard {
  import opened Common
  import opened CardArt

  /** The six backdrop gradients (the first six of the gift card's). */
  const BACKDROPS: seq<string> := [
    "radial-gradient(circle, rgb(95, 120, 73) 30%, rgb(60, 79, 59) 100%)",
    "radial-gradient(circle, rgb(221, 142, 111) 30%, rgb(183, 90, 96) 100%)",
    "radial-gradient(circle, rgb(131, 165, 133) 30%, rgb(80, 113, 80) 100%)",
    "radial-gradient(circle, rgb(167, 178, 192) 30%, rgb(110, 122, 140) 100%)",
    "radial-gradient(circle, rgb(122, 198, 186) 30%, rgb(70, 142, 132) 100%)",
    "radial-gradient(circle, rgb(186, 178, 162) 30%, rgb(135, 124, 108) 100%)"]

  datatype Props = Props(
    name: Option<string>,
    image: Option<string>,
    provider: Option<string>,
    price: string,
    soldOut: bool,
    backdrop: Option<string>)

  /** The art square's centre: the item's picture or a faint cart icon. */
  datatype Art = Picture(src: string) | CartIcon

  datatype View = View(
    background: string,
    art: Art,
    badge: ProviderBadge,
    /** Dimmed and grey, with the 'Sold out' banner over the art. */
    soldOutBanner: bool,
    addButton: bool)

  function Render(p: Props): (v: View)
    ensures v.background == Background(p.backdrop, p.name, BACKDROPS)
    ensures v.background in BACKDROPS || v.background == p.backdrop.value
    ensures v.art == (if p.image.Some? && p.image.value != "" then Picture(p.image.value) else CartIcon)
    ensures v.badge == CardArt.Badge(p.provider)
    ensures v.soldOutBanner <==> p.soldOut
    ensures v.addButton <==> !p.soldOut
  {
    View(
      Background(p.backdrop, p.name, BACKDROPS),
      if p.image.Some? && p.image.value != "" then Picture(p.image.value) else CartIcon,
      CardArt.Badge(p.provider),
      p.soldOut,
      !p.soldOut)
  }

  /** The add button's click: `onAdd` runs when given, and the card's own click does not. */
  function AddClick(p: Props, hasHandler: bool): (calls: Option<nat>)
    ensures calls.None? <==> p.soldOut
    ensures calls.Some? ==> calls.value == (if hasHandler then 1 else 0)
  {
    if p.soldOut then None else Some(if hasHandler then 1 else 0)
  }
}
