/**
 * The colour picker: a swatch grid, a hue slider and a hex text field over
 * one committed colour. A colour is committed only as `#` and six hex digits.
 *
 * The HSL conversions are floating-point code and stay uninterpreted: the
 * hue of a colour, its saturation and lightness, and the HSL-to-hex
 * conversion are functions the picker is given.
 */
module ColorPicker {
  import opened Common

  const POPOVER_W: real := 260.0

  predicate IsHexDigit(c: char)
  {
    ('0' <= c <= '9') || ('a' <= c <= 'f') || ('A' <= c <= 'F')
  }

  /** The value of one hex digit. */
  function DigitValue(c: char): (v: int)
    requires IsHexDigit(c)
    ensures 0 <= v < 16
  {
    if '0' <= c <= '9' then c as int - '0' as int
    else if 'a' <= c <= 'f' then c as int - 'a' as int + 10
    else c as int - 'A' as int + 10
  }

  /** `/^#[0-9a-fA-F]{6}$/.test(s)`. */
  predicate ValidHex(s: string)
  {
    |s| == 7 && s[0] == '#' && forall i :: 1 <= i < 7 ==> IsHexDigit(s[i])
  }

  /** `parseInt(hex.slice(k, k + 2), 16)` for a valid colour. */
  function Channel(hex: string, k: nat): (v: int)
    requires ValidHex(hex) && k in {1, 3, 5}
    ensures 0 <= v <= 255
  {
    16 * DigitValue(hex[k]) + DigitValue(hex[k + 1])
  }

  /** The red, green and blue channels: character pairs 1-2, 3-4 and 5-6. */
  function Channels(hex: string): (rgb: (int, int, int))
    requires ValidHex(hex)
    ensures 0 <= rgb.0 <= 255 && 0 <= rgb.1 <= 255 && 0 <= rgb.2 <= 255
  {
    (Channel(hex, 1), Channel(hex, 3), Channel(hex, 5))
  }

  /** The lower-case digit `toString(16)` writes for `d`. */
  function HexChar(d: int): (c: char)
    requires 0 <= d < 16
    ensures IsHexDigit(c) && DigitValue(c) == d
  {
    if d < 10 then ('0' as int + d) as char else ('a' as int + d - 10) as char
  }

  /** `n.toString(16).padStart(2, '0')` for a channel value. */
  function HexPair(n: int): (p: string)
    requires 0 <= n <= 255
    ensures |p| == 2 && IsHexDigit(p[0]) && IsHexDigit(p[1])
    ensures 16 * DigitValue(p[0]) + DigitValue(p[1]) == n
  {
    [HexChar(n / 16), HexChar(n % 16)]
  }

  /** The `#rrggbb` text of three channels. */
  function FormatHex(r: int, g: int, b: int): (hex: string)
    requires 0 <= r <= 255 && 0 <= g <= 255 && 0 <= b <= 255
    ensures ValidHex(hex)
  {
    "#" + HexPair(r) + HexPair(g) + HexPair(b)
  }

  /** Formatting channels and parsing them back gives the same channels. */
  lemma HexRoundTrip(r: int, g: int, b: int)
    requires 0 <= r <= 255 && 0 <= g <= 255 && 0 <= b <= 255
    ensures Channels(FormatHex(r, g, b)) == (r, g, b)
  {
    var hex := FormatHex(r, g, b);
    assert hex[1..3] == HexPair(r) && hex[3..5] == HexPair(g) && hex[5..7] == HexPair(b);
  }

  /** Saturation raised to at least 50 and lightness kept in [30, 70] before the hue is applied. */
  function SliderTone(s: int, l: int): (t: (int, int))
    ensures t.0 == IntMax(s, 50) && t.0 >= 50
    ensures 30 <= t.1 <= 70
    ensures 30 <= l <= 70 ==> t.1 == l
  {
    (IntMax(s, 50), IntMax(IntMin(l, 70), 30))
  }

  /** The popover 6 px below the trigger, 16 px from the right edge, at least 8 px from the left. */
  function PopoverPosition(trigger: Rect, innerWidth: real): (pos: (real, real))
    ensures pos.0 == trigger.Bottom() + 6.0
    ensures pos.1 >= 8.0
    ensures pos.1 == Max(8.0, Min(trigger.left, innerWidth - POPOVER_W - 16.0))
    ensures innerWidth - POPOVER_W - 16.0 >= 8.0 ==> pos.1 + POPOVER_W <= innerWidth - 16.0
  {
    (trigger.Bottom() + 6.0, Max(8.0, Min(trigger.left, innerWidth - POPOVER_W - 16.0)))
  }

  /** A swatch is marked when it equals the current text up to letter case. */
  predicate SwatchSelected(hex: string, swatch: string)
  {
    ToLower(hex) == ToLower(swatch)
  }

  /** Marking ignores case on either side. */
  lemma SwatchSelectedIgnoresCase(hex: string, swatch: string)
    ensures SwatchSelected(ToLower(hex), swatch) == SwatchSelected(hex, swatch)
    ensures SwatchSelected(hex, ToLower(swatch)) == SwatchSelected(hex, swatch)
  {
    assert ToLower(ToLower(hex)) == ToLower(hex);
    assert ToLower(ToLower(swatch)) == ToLower(swatch);
  }

  class PickerModel {
    var open: bool
    /** The text shown: the committed colour, or what is being typed. */
    var hex: string
    var hue: int
    /** The `value` prop. */
    var value: string
    /** The colours passed to `onChange`, in order. */
    var changes: seq<string>
    const hueOf: string -> int
    const toneOf: string -> (int, int)
    const hslToHex: (int, int, int) -> string

    constructor (value: string, hueOf: string -> int, toneOf: string -> (int, int),
                 hslToHex: (int, int, int) -> string)
      ensures this.value == value && hex == value && hue == hueOf(value) && !open && changes == []
      ensures this.hueOf == hueOf && this.toneOf == toneOf && this.hslToHex == hslToHex
    {
      this.value := value;
      hex := value;
      hue := hueOf(value);
      open := false;
      changes := [];
      this.hueOf := hueOf;
      this.toneOf := toneOf;
      this.hslToHex := hslToHex;
    }

    /** A new `value` prop resyncs the text and the hue. */
    method ValueChanged(v: string)
      modifies this
      ensures value == v && hex == v && hue == hueOf(v)
      ensures open == old(open) && changes == old(changes)
    {
      value := v;
      hex := v;
      hue := hueOf(v);
    }

    /** `commit`: the text, the hue and the `onChange` call all get the same colour. */
    method Commit(color: string)
      modifies this
      ensures hex == color && hue == hueOf(color) && changes == old(changes) + [color]
      ensures open == old(open) && value == old(value)
    {
      hex := color;
      hue := hueOf(color);
      changes := changes + [color];
    }

    /** Typing: the text always follows; a complete colour is also committed. */
    method HexTyped(v: string)
      modifies this
      ensures hex == v && open == old(open) && value == old(value)
      ensures ValidHex(v) ==> changes == old(changes) + [v] && hue == hueOf(v)
      ensures !ValidHex(v) ==> changes == old(changes) && hue == old(hue)
    {
      hex := v;
      if ValidHex(v) {
        Commit(v);
      }
    }

    /** Leaving the field: incomplete text reverts to the `value` prop. */
    method HexBlur()
      modifies this
      ensures ValidHex(old(hex)) ==> hex == old(hex)
      ensures !ValidHex(old(hex)) ==> hex == value
      ensures ValidHex(hex) || hex == value
      ensures changes == old(changes) && hue == old(hue) && value == old(value) && open == old(open)
    {
      if !ValidHex(hex) {
        hex := value;
      }
    }

    /** A swatch commits its colour. */
    method SwatchClick(c: string)
      modifies this
      ensures hex == c && hue == hueOf(c) && changes == old(changes) + [c] && open == old(open) && value == old(value)
    {
      Commit(c);
    }

    /** The hue slider: keep the tone, raised and clamped, and commit the colour at the new hue. */
    method HueInput(newHue: int)
      requires 0 <= newHue <= 359
      modifies this
      ensures var t := SliderTone(toneOf(old(hex)).0, toneOf(old(hex)).1);
        && hex == hslToHex(newHue, t.0, t.1)
        && changes == old(changes) + [hex]
        && hue == hueOf(hex)
      ensures open == old(open) && value == old(value)
    {
      hue := newHue;
      var tone := toneOf(hex);
      var t := SliderTone(tone.0, tone.1);
      Commit(hslToHex(newHue, t.0, t.1));
    }

    method TriggerClick()
      modifies this
      ensures open == !old(open) && hex == old(hex) && changes == old(changes)
      ensures hue == old(hue) && value == old(value)
    {
      open := !open;
    }

    /** A mousedown outside both the trigger and the popover closes it. */
    method DocumentMouseDown(inTrigger: bool, inPopover: bool)
      modifies this
      ensures open == (old(open) && (inTrigger || inPopover))
      ensures hex == old(hex) && changes == old(changes) && hue == old(hue) && value == old(value)
    {
      if open && !inTrigger && !inPopover {
        open := false;
      }
    }
  }
}
