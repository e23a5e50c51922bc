/**
 * The integer colour helpers of the colour extractor: `rgbToHex`, `hexToRgbTuple`,
 * the 32-bit string hash behind `hashStringToHue`, and the palette chosen when no
 * seed is given. The lighten and darken helpers are the ones in `HexColor`.
 */
module ColorExtractor {
  import opened Wrappers
  import opened HexColor
  import opened Text

  /** `hex.length === 1 ? "0" + hex : hex` */
  function Pad(hex: string): string {
    if |hex| == 1 then "0" + hex else hex
  }

  /** A channel's `toString(16)`, padded to two digits, is its two-digit numeral. */
  lemma PadToHex(x: nat)
    requires x < 256
    ensures Pad(ToHex(x)) == Pair(x)
  {
    if x < 16 {
      assert ToHex(x) == [HexChar(x)];
      assert x / 16 == 0 && x % 16 == x;
      assert HexChar(0) == '0';
    } else {
      assert ToHex(x / 16) == [HexChar(x / 16)];
    }
  }

  /** `rgbToHex`: `#` and, per channel, `toString(16)` padded to two digits. */
  function RgbToHex(r: nat, g: nat, b: nat): (s: string)
    ensures r < 256 && g < 256 && b < 256 ==>
              IsLowerHexColor(s) && s == "#" + Pair(r) + Pair(g) + Pair(b)
  {
    var s := "#" + Pad(ToHex(r)) + Pad(ToHex(g)) + Pad(ToHex(b));
    if r < 256 && g < 256 && b < 256 then
      PadToHex(r);
      PadToHex(g);
      PadToHex(b);
      s
    else s
  }

  /** `hexToRgbTuple`: the red, green and blue bytes of `parseInt` of the six digits. */
  function HexToRgbTuple(hex: string): (c: Rgb)
    requires IsHexColor(hex)
    ensures c == Rgb(ParseHex(hex[1..3]), ParseHex(hex[3..5]), ParseHex(hex[5..7]))
    ensures IsChannel(c.r) && IsChannel(c.g) && IsChannel(c.b)
  {
    ChannelDigits(hex);
    Split24(ColorValue(hex))
  }

  /** Reading back the colour `rgbToHex` writes gives the three channels. */
  lemma RgbHexRoundTrip(r: nat, g: nat, b: nat)
    requires r < 256 && g < 256 && b < 256
    ensures IsHexColor(RgbToHex(r, g, b))
    ensures HexToRgbTuple(RgbToHex(r, g, b)) == Rgb(r, g, b)
  {
    ComposeChannels(r, g, b);
  }

  lemma PairOfDigits(s: string)
    requires |s| == 2 && AllLowerHex(s)
    ensures AllHex(s) && ParseHex(s) < 256 && Pair(ParseHex(s)) == s
  {
    Parse2(s);
    var x := ParseHex(s);
    assert x / 16 == HexValue(s[0]) && x % 16 == HexValue(s[1]);
    LowerHexCharOfValue(s[0]);
    LowerHexCharOfValue(s[1]);
  }

  lemma LowerHexCharOfValue(c: char)
    requires IsLowerHexDigit(c)
    ensures HexChar(HexValue(c)) == c
  {
  }

  /** Writing back the channels of a lower-case `#rrggbb` gives the same string. */
  lemma HexRgbRoundTrip(hex: string)
    requires IsLowerHexColor(hex)
    ensures IsHexColor(hex)
    ensures var c := HexToRgbTuple(hex); RgbToHex(c.r, c.g, c.b) == hex
  {
    assert AllLowerHex(hex[1..3]) && AllLowerHex(hex[3..5]) && AllLowerHex(hex[5..7]) by {
      assert forall i :: 0 <= i < 2 ==> hex[1..3][i] == hex[1..][i] && hex[3..5][i] == hex[1..][i + 2]
                                           && hex[5..7][i] == hex[1..][i + 4];
    }
    PairOfDigits(hex[1..3]);
    PairOfDigits(hex[3..5]);
    PairOfDigits(hex[5..7]);
    assert AllHex(hex[1..]) by {
      assert forall i :: 0 <= i < 6 ==> IsLowerHexDigit(hex[1..][i]);
    }
    assert hex == "#" + hex[1..3] + hex[3..5] + hex[5..7];
  }

  // ---- 32-bit arithmetic as JavaScript performs it ----

  const TWO32: int := 0x1_0000_0000
  const TWO31: int := 0x8000_0000

  predicate IsInt32(x: int) {
    -TWO31 <= x < TWO31
  }

  /** ECMAScript ToInt32: the value congruent to `x` modulo 2^32 in the signed 32-bit range. */
  function ToInt32(x: int): (y: int)
    ensures IsInt32(y)
    ensures (y - x) % TWO32 == 0
  {
    var m := (x + TWO31) % TWO32;
    assert x + TWO31 == TWO32 * ((x + TWO31) / TWO32) + m;
    m - TWO31
  }

  /** Two numbers congruent modulo 2^32 have the same ToInt32. */
  lemma ToInt32Congruent(x: int, y: int)
    requires (x - y) % TWO32 == 0
    ensures ToInt32(x) == ToInt32(y)
  {
    var k := (x - y) / TWO32;
    assert x == y + TWO32 * k;
    assert (x + TWO31) % TWO32 == (y + TWO31) % TWO32 by {
      ModShift(y + TWO31, k);
    }
  }

  lemma ModShift(a: int, k: int)
    ensures (a + TWO32 * k) % TWO32 == a % TWO32
  {
    var q := a / TWO32;
    var m := a % TWO32;
    assert a + TWO32 * k == TWO32 * (q + k) + m;
  }

  /** `a % 360` as JavaScript computes it: the remainder takes the dividend's sign. */
  function JsRem360(a: int): (r: int)
    ensures -360 < r < 360
    ensures a >= 0 ==> 0 <= r
    ensures a < 0 ==> r <= 0
    ensures (a - r) % 360 == 0
  {
    if a >= 0 then a % 360 else -((-a) % 360)
  }

  /** One step of the loop: `hash = (hash << 5) - hash + code; hash |= 0`. */
  function HashStep(hash: int, code: nat): int {
    ToInt32(ToInt32(hash * 32) - hash + code)
  }

  /** The step is the familiar `31 * hash + code`, taken modulo 2^32. */
  lemma HashStepIsTimes31(hash: int, code: nat)
    ensures HashStep(hash, code) == ToInt32(31 * hash + code)
  {
    var t := ToInt32(hash * 32);
    assert (t - hash + code) - (31 * hash + code) == t - hash * 32;
    ToInt32Congruent(t - hash + code, 31 * hash + code);
  }

  /** The hash after folding the steps over a sequence of UTF-16 code units. */
  function HashOf(units: seq<nat>): (h: int)
    ensures IsInt32(h)
  {
    if units == [] then 0 else HashStep(HashOf(units[..|units| - 1]), units[|units| - 1])
  }

  /** The polynomial hash `sum of code[i] * 31^(n-1-i)` over the integers, before any wrapping. */
  function Poly31(units: seq<nat>): int {
    if units == [] then 0 else 31 * Poly31(units[..|units| - 1]) + units[|units| - 1]
  }

  /** Wrapping after every step gives the same hash as wrapping the exact polynomial once. */
  lemma {:induction false} HashOfIsPoly31(units: seq<nat>)
    ensures HashOf(units) == ToInt32(Poly31(units))
  {
    if units != [] {
      var p := units[..|units| - 1];
      var c := units[|units| - 1];
      HashOfIsPoly31(p);
      HashStepIsTimes31(HashOf(p), c);
      var k := (HashOf(p) - Poly31(p)) / TWO32;
      assert HashOf(p) - Poly31(p) == TWO32 * k;
      assert (31 * HashOf(p) + c) - Poly31(units) == TWO32 * (31 * k);
      ModShift(0, 31 * k);
      ToInt32Congruent(31 * HashOf(p) + c, Poly31(units));
    }
  }

  /** `((hash % 360) + 360) % 360` with JavaScript's `%`. */
  function HueBucket(hash: int): int {
    JsRem360(JsRem360(hash) + 360)
  }

  /** The bucket is the mathematical residue of the hash modulo 360, so it lies in [0, 360). */
  lemma HueBucketIsResidue(hash: int)
    ensures HueBucket(hash) == hash % 360
    ensures 0 <= HueBucket(hash) < 360
  {
    var t := JsRem360(hash);
    var q := (hash - t) / 360;
    assert hash == t + 360 * q;
    var u := t + 360;
    assert 0 < u < 720;
    assert JsRem360(u) == u % 360;
    assert u % 360 == hash % 360 by {
      assert hash == u + 360 * (q - 1);
      ResidueShift(u, q - 1);
    }
  }

  lemma ResidueShift(a: int, k: int)
    ensures (a + 360 * k) % 360 == a % 360
  {
    var q := a / 360;
    var m := a % 360;
    assert a + 360 * k == 360 * (q + k) + m;
  }

  /**
   * The integer part of `hashStringToHue`: the loop over the seed's code units and the
   * bucket in [0, 360) (the final division by 360 is floating point and left out).
   */
  method HashStringToHue(seed: string) returns (bucket: int)
    ensures bucket == HueBucket(HashOf(CodeUnits(seed)))
    ensures 0 <= bucket < 360
  {
    var units := CodeUnits(seed);
    var hash := 0;
    var i := 0;
    while i < |units|
      invariant 0 <= i <= |units|
      invariant hash == HashOf(units[..i])
      invariant IsInt32(hash)
    {
      assert units[..i + 1][..i] == units[..i];
      hash := HashStep(hash, units[i]);
      i := i + 1;
    }
    assert units[..|units|] == units;
    bucket := HueBucket(hash);
    HueBucketIsResidue(hash);
  }

  /** What `defaultPalette` returns: the fixed palette, or colours derived from a hue bucket. */
  datatype PaletteChoice = Fixed(palette: Palette) | FromHue(bucket: int)

  const FixedPalette: Palette := Palette("#3b82f6", "#0ea5e9", "#e0f2ff", "#1d4ed8")

  /**
   * `defaultPalette(seed)`: a missing or empty seed gives the fixed palette; any other
   * seed gives colours from its hue bucket (their HSL conversion is left out).
   */
  function DefaultPalette(seed: Option<string>): (c: PaletteChoice)
    ensures (seed.None? || seed.value == []) <==> c.Fixed?
    ensures c.Fixed? ==> c.palette == FixedPalette
    ensures c.FromHue? ==> c.bucket == HueBucket(HashOf(CodeUnits(seed.value))) && 0 <= c.bucket < 360
  {
    match seed
    case None => Fixed(FixedPalette)
    case Some(s) =>
      if s == [] then Fixed(FixedPalette)
      else
        var h := HashOf(CodeUnits(s));
        HueBucketIsResidue(h);
        FromHue(HueBucket(h))
  }

  /** The four fixed colours are well-formed lower-case `#rrggbb` strings. */
  lemma FixedPaletteWellFormed()
    ensures IsLowerHexColor(FixedPalette.primary) && IsLowerHexColor(FixedPalette.secondary)
    ensures IsLowerHexColor(FixedPalette.light) && IsLowerHexColor(FixedPalette.dark)
  {
  }
}
