/**
 * The artwork choices shared by the gift card and the item card: a 32-bit
 * string hash that picks a backdrop, and the marketplace icon looked up from
 * the provider name.
 *
 * JavaScript strings are sequences of UTF-16 code units; `charCodeAt` reads
 * one unit, so a character outside the Basic Multilingual Plane contributes
 * its two surrogates.
 */
module CardArt {
  import opened Common

  const TWO_31: int := 0x8000_0000
  const TWO_32: int := 0x1_0000_0000

  /** `x | 0`: the signed 32-bit integer congruent to `x` modulo 2^32. */
  function Signed32(x: int): (r: int)
    ensures -TWO_31 <= r < TWO_31
    ensures -TWO_31 <= x < TWO_31 ==> r == x
  {
    (x + TWO_31) % TWO_32 - TWO_31
  }

  /** Adding a multiple of 2^32 does not change the 32-bit value. */
  lemma Signed32Shift(x: int, k: int)
    ensures Signed32(x + k * TWO_32) == Signed32(x)
  {
    var q, r := (x + TWO_31) / TWO_32, (x + TWO_31) % TWO_32;
    assert x + TWO_31 + k * TWO_32 == (q + k) * TWO_32 + r;
  }

  /** Wrapping an operand first gives the same 32-bit sum. */
  lemma Signed32OfSum(a: int, b: int)
    ensures Signed32(Signed32(a) + b) == Signed32(a + b)
  {
    var k := (a + TWO_31) / TWO_32;
    assert Signed32(a) == a - k * TWO_32;
    Signed32Shift(a + b, -k);
  }

  /** One round of the loop: `((h << 5) - h + code) | 0`. */
  function HashStep(h: int, code: int): int
  {
    Signed32(Signed32(Signed32(h) * 32) - h + code)
  }

  /** For a 32-bit `h` the round is `31 h + code` wrapped to 32 bits. */
  lemma HashStepIsTimes31(h: int, code: int)
    requires -TWO_31 <= h < TWO_31
    ensures HashStep(h, code) == Signed32(31 * h + code)
  {
    Signed32OfSum(h * 32, -h + code);
  }

  /** The loop's value after the given code units, from 0. */
  function Fold(units: seq<int>): (h: int)
    ensures -TWO_31 <= h < TWO_31
  {
    if units == [] then 0 else HashStep(Fold(units[..|units| - 1]), units[|units| - 1])
  }

  /** The textbook string hash: h <- 31 h + code, wrapped to 32 bits. */
  function Fold31(units: seq<int>): (h: int)
  {
    if units == [] then 0 else Signed32(31 * Fold31(units[..|units| - 1]) + units[|units| - 1])
  }

  /** The shift-and-subtract loop computes the 31-multiplier hash. */
  lemma {:induction false} FoldIsFold31(units: seq<int>)
    ensures Fold(units) == Fold31(units)
    decreases |units|
  {
    if units != [] {
      var init := units[..|units| - 1];
      FoldIsFold31(init);
      HashStepIsTimes31(Fold(init), units[|units| - 1]);
    }
  }

  /** `hashCode`: the absolute value of the fold over the string's code units. */
  function HashOf(s: string): (h: nat)
    ensures h <= TWO_31
    ensures s == "" ==> h == 0
  {
    var f := Fold(Utf16(s));
    if f < 0 then -f else f
  }

  /** `hashCode(s)` as its loop computes it. */
  method HashCode(s: string) returns (h: int)
    ensures h == HashOf(s)
    ensures 0 <= h <= TWO_31
  {
    var units := Utf16(s);
    h := 0;
    var i := 0;
    while i < |units|
      invariant 0 <= i <= |units|
      invariant h == Fold(units[..i])
    {
      assert units[..i + 1][..i] == units[..i];
      h := Signed32(Signed32(Signed32(h) * 32) - h + units[i]);
      i := i + 1;
    }
    assert units[..i] == units;
    if h < 0 {
      h := -h;
    }
  }

  /** A backdrop slot: the hash of the name, or of '' without one, modulo the number of backdrops. */
  function BackdropIndex(name: Option<string>, count: nat): (i: nat)
    requires count > 0
    ensures i < count
    ensures StringOr(name, "") == "" ==> i == 0
    ensures i == HashOf(StringOr(name, "")) % count
  {
    HashOf(StringOr(name, "")) % count
  }

  /** `backdrop || BACKDROPS[hashCode(name || '') % BACKDROPS.length]`. */
  function Background(backdrop: Option<string>, name: Option<string>, backdrops: seq<string>): (bg: string)
    requires |backdrops| > 0
    ensures backdrop.Some? && backdrop.value != "" ==> bg == backdrop.value
    ensures !(backdrop.Some? && backdrop.value != "") ==> bg == backdrops[BackdropIndex(name, |backdrops|)]
  {
    if backdrop.Some? && backdrop.value != "" then backdrop.value
    else backdrops[BackdropIndex(name, |backdrops|)]
  }

  /** The marketplace icons, by normalised provider name. */
  const PROVIDER_IMGS: map<string, string> := map[
    "getgems" := "/swift-assets/img/getgems.jpeg",
    "fragment" := "/swift-assets/img/fragment.jpeg",
    "mrkt" := "/swift-assets/img/mrkt.jpeg",
    "tonnel" := "/swift-assets/img/tonnel.jpeg",
    "portals" := "/swift-assets/img/portals.jpeg",
    "marketapp" := "/swift-assets/img/marketapp.jpeg"]

  /** The lookup key: the lowered name with all white space removed. */
  function ProviderKey(provider: string): (key: string)
    ensures key == Filter(ToLower(provider), NotSpace)
    ensures forall i :: 0 <= i < |key| ==> !IsSpace(key[i]) && !('A' <= key[i] <= 'Z')
  {
    var lower := ToLower(provider);
    LowerStaysLower(lower);
    StripSpaces(lower)
  }

  lemma ToLowerConcat(a: string, b: string)
    ensures ToLower(a + b) == ToLower(a) + ToLower(b)
  {
    assert forall i :: 0 <= i < |a + b| ==> ToLower(a + b)[i] == (ToLower(a) + ToLower(b))[i];
  }

  /** Filtering out white space drops a lone space. */
  lemma FilterSpace()
    ensures Filter(" ", NotSpace) == []
  {
    assert " " == [' '] + [];
    FilterCons(' ', [], NotSpace);
  }

  /** White space anywhere in the name, not only around it, is ignored. */
  lemma ProviderKeyIgnoresInnerSpace(a: string, b: string)
    ensures ProviderKey(a + " " + b) == ProviderKey(a + b)
  {
    var la, lb := ToLower(a), ToLower(b);
    ToLowerConcat(a + " ", b);
    ToLowerConcat(a, " ");
    ToLowerConcat(a, b);
    assert ToLower(" ") == " ";
    calc {
      ProviderKey(a + " " + b);
      Filter(ToLower(a + " " + b), NotSpace);
      Filter((la + " ") + lb, NotSpace);
      { FilterConcat(la + " ", lb, NotSpace); }
      Filter(la + " ", NotSpace) + Filter(lb, NotSpace);
      { FilterConcat(la, " ", NotSpace); FilterSpace(); }
      Filter(la, NotSpace) + Filter(lb, NotSpace);
      { FilterConcat(la, lb, NotSpace); }
      Filter(la + lb, NotSpace);
      Filter(ToLower(a + b), NotSpace);
      ProviderKey(a + b);
    }
  }

  /** "GetGems" is already its own key once lowered. */
  lemma GetGemsKey()
    ensures ProviderKey("GetGems") == "getgems"
  {
    var k := ToLower("GetGems");
    assert |k| == 7;
    assert k[0] == LowerChar('G') == 'g';
    assert k[3] == LowerChar('G') == 'g';
    assert k == "getgems";
    NoSpaceInGetgems();
  }

  lemma NoSpaceInGetgems()
    ensures StripSpaces("getgems") == "getgems"
  {
    var s := "getgems";
    assert forall i :: 0 <= i < |s| ==> 'a' <= s[i] <= 'z';
  }

  /** "Get Gems" finds the getgems icon. */
  lemma ProviderImageIgnoresInnerSpace()
    ensures ProviderImage(Some("Get Gems")) == Some(PROVIDER_IMGS["getgems"])
  {
    assert "Get Gems" == "Get" + " " + "Gems";
    assert "Get" + "Gems" == "GetGems";
    ProviderKeyIgnoresInnerSpace("Get", "Gems");
    GetGemsKey();
  }

  lemma LowerStaysLower(s: string)
    requires forall i :: 0 <= i < |s| ==> !('A' <= s[i] <= 'Z')
    ensures forall i :: 0 <= i < |StripSpaces(s)| ==> !('A' <= StripSpaces(s)[i] <= 'Z')
  {
    if s != [] {
      LowerStaysLower(s[1..]);
    }
  }

  /** `getProviderImg`: null for a falsy provider or a name with no icon. */
  function ProviderImage(provider: Option<string>): (img: Option<string>)
    ensures !(provider.Some? && provider.value != "") ==> img.None?
    ensures provider.Some? && provider.value != "" ==>
              (img.Some? <==> ProviderKey(provider.value) in PROVIDER_IMGS)
    ensures img.Some? ==> img == Some(PROVIDER_IMGS[ProviderKey(provider.value)])
  {
    if !(provider.Some? && provider.value != "") then None
    else
      var key := ProviderKey(provider.value);
      if key in PROVIDER_IMGS then Some(PROVIDER_IMGS[key]) else None
  }

  /** Case and spacing do not change the provider lookup. */
  lemma ProviderImageIgnoresCase(name: string)
    ensures ProviderImage(Some(" " + name + " ")) == ProviderImage(Some(ToLower(name)))
  {
    var padded := " " + name + " ";
    assert ToLower(padded) == " " + ToLower(name) + " ";
    StripAround(ToLower(name));
    LowerIdempotent(name);
  }

  lemma StripAround(s: string)
    ensures StripSpaces(" " + s + " ") == StripSpaces(s)
  {
    assert (" " + s + " ")[1..] == s + " ";
    StripTrailingSpace(s);
  }

  lemma {:induction false} StripTrailingSpace(s: string)
    ensures StripSpaces(s + " ") == StripSpaces(s)
    decreases |s|
  {
    if s == [] {
      assert [' '][1..] == [];
    } else {
      assert (s + " ")[0] == s[0] && (s + " ")[1..] == s[1..] + " ";
      StripTrailingSpace(s[1..]);
    }
  }

  lemma LowerIdempotent(s: string)
    ensures ToLower(ToLower(s)) == ToLower(s)
  {
  }

  /** What sits in the card's top-left corner. */
  datatype ProviderBadge = NoBadge | ImageBadge(src: string) | TextBadge(text: string)

  /** An icon for a known provider, its name for an unknown one, nothing without one. */
  function Badge(provider: Option<string>): (b: ProviderBadge)
    ensures b == NoBadge <==> !(provider.Some? && provider.value != "")
    ensures b.ImageBadge? <==> ProviderImage(provider).Some?
    ensures b.ImageBadge? ==> b.src == ProviderImage(provider).value
    ensures b.TextBadge? ==> b.text == provider.value
  {
    if !(provider.Some? && provider.value != "") then NoBadge
    else match ProviderImage(provider)
      case Some(src) => ImageBadge(src)
      case None => TextBadge(provider.value)
  }
}
