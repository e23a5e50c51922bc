/**
 * Integer colour arithmetic shared by the configuration helpers and the colour
 * extractor: hexadecimal digits, `Number.prototype.toString(16)`, `parseInt(x, 16)`
 * on a `#rrggbb` string, and the channel split `num >> 16`, `num >> 8 & 0xFF`, `num & 0xFF`.
 */
module HexColor {

  predicate IsHexDigit(c: char) {
    ('0' <= c <= '9') || ('a' <= c <= 'f') || ('A' <= c <= 'F')
  }

  predicate IsLowerHexDigit(c: char) {
    ('0' <= c <= '9') || ('a' <= c <= 'f')
  }

  predicate AllHex(s: string) {
    forall i :: 0 <= i < |s| ==> IsHexDigit(s[i])
  }

  predicate AllLowerHex(s: string) {
    forall i :: 0 <= i < |s| ==> IsLowerHexDigit(s[i])
  }

  function HexValue(c: char): (d: nat)
    requires IsHexDigit(c)
    ensures d < 16
  {
    if '0' <= c <= '9' then c as int - '0' as int
    else if 'a' <= c <= 'f' then c as int - 'a' as int + 10
    else c as int - 'A' as int + 10
  }

  /** The lower-case digit for `d`, as `toString(16)` writes it. */
  function HexChar(d: nat): (c: char)
    requires d < 16
    ensures IsLowerHexDigit(c) && HexValue(c) == d
  {
    if d < 10 then '0' + d as char else 'a' + (d - 10) as char
  }

  /** `parseInt(s, 16)` for a string made only of hexadecimal digits. */
  function ParseHex(s: string): nat
    requires AllHex(s)
  {
    if s == [] then 0 else ParseHex(s[..|s| - 1]) * 16 + HexValue(s[|s| - 1])
  }

  lemma ParseHexStep(s: string)
    requires AllHex(s) && s != []
    ensures ParseHex(s) == ParseHex(s[..|s| - 1]) * 16 + HexValue(s[|s| - 1])
  {
  }

  /** Two digits: high digit times 16 plus low digit. */
  lemma Parse2(s: string)
    requires |s| == 2 && AllHex(s)
    ensures ParseHex(s) == HexValue(s[0]) * 16 + HexValue(s[1])
    ensures ParseHex(s) < 256
  {
    assert s[..1][..0] == [];
    assert s[..1] == [s[0]];
    ParseHexStep(s);
    ParseHexStep(s[..1]);
  }

  /** Six digits: three two-digit groups, weighted 65536, 256 and 1. */
  lemma Parse6(d: string)
    requires |d| == 6 && AllHex(d)
    ensures ParseHex(d) == ParseHex(d[..2]) * 65536 + ParseHex(d[2..4]) * 256 + ParseHex(d[4..6])
    ensures ParseHex(d) < 0x100_0000
  {
    ParseLastPair(d);
    ParseLastPair(d[..4]);
    assert d[..4][..2] == d[..2] && d[..4][2..] == d[2..4];
    Parse2(d[..2]);
    Parse2(d[2..4]);
    Parse2(d[4..6]);
  }

  /** The last two digits weigh 1 and 16, and the rest 256 times what they weigh alone. */
  lemma ParseLastPair(s: string)
    requires |s| >= 2 && AllHex(s)
    ensures ParseHex(s) == ParseHex(s[..|s| - 2]) * 256 + ParseHex(s[|s| - 2..])
  {
    var n := |s|;
    var t := s[..n - 1];
    assert t[..n - 2] == s[..n - 2] && t[n - 2] == s[n - 2];
    ParseHexStep(s);
    ParseHexStep(t);
    Parse2(s[n - 2..]);
  }

  /** `n.toString(16)` for a non-negative integer: lower-case digits, no leading zeros. */
  function ToHex(n: nat): (s: string)
    ensures |s| >= 1 && AllLowerHex(s)
  {
    if n < 16 then [HexChar(n)] else ToHex(n / 16) + [HexChar(n % 16)]
  }

  /** `toString(16)` writes no leading zero, and `parseInt(_, 16)` reads back the number. */
  lemma {:induction false} ToHexRoundTrip(n: nat)
    ensures AllHex(ToHex(n)) && ParseHex(ToHex(n)) == n
    ensures ToHex(n)[0] == '0' ==> n == 0
  {
    if n >= 16 {
      ToHexRoundTrip(n / 16);
      var s := ToHex(n);
      assert s[..|s| - 1] == ToHex(n / 16);
    }
  }

  /** Two lower-case digits for a channel value. */
  function Pair(x: nat): (s: string)
    requires x < 256
    ensures |s| == 2 && AllLowerHex(s) && AllHex(s) && ParseHex(s) == x
  {
    var s := [HexChar(x / 16), HexChar(x % 16)];
    Parse2(s);
    s
  }

  /** The shape every caller of the channel helpers passes: `#` and six hexadecimal digits. */
  predicate IsHexColor(s: string) {
    |s| == 7 && s[0] == '#' && AllHex(s[1..])
  }

  /** `#` followed by six hexadecimal digits, checked one character at a time. */
  lemma HexColorOfDigits(s: string)
    requires |s| == 7 && s[0] == '#'
    requires IsHexDigit(s[1]) && IsHexDigit(s[2]) && IsHexDigit(s[3])
    requires IsHexDigit(s[4]) && IsHexDigit(s[5]) && IsHexDigit(s[6])
    ensures IsHexColor(s)
  {
    forall i | 0 <= i < 6 ensures IsHexDigit(s[1..][i]) {
      assert s[1..][i] == s[i + 1];
    }
  }

  /** `#` and six lower-case hexadecimal digits: what the helpers produce. */
  predicate IsLowerHexColor(s: string) {
    |s| == 7 && s[0] == '#' && AllLowerHex(s[1..])
  }

  datatype Rgb = Rgb(r: int, g: int, b: int)

  /** The four theme colours the widget works with. */
  datatype Palette = Palette(primary: string, secondary: string, light: string, dark: string)

  predicate IsChannel(x: int) {
    0 <= x < 256
  }

  /** `parseInt(hex.replace("#", ""), 16)` for a `#rrggbb` string. */
  function ColorValue(hex: string): (num: nat)
    requires IsHexColor(hex)
    ensures num < 0x100_0000
  {
    Parse6(hex[1..]);
    ParseHex(hex[1..])
  }

  /** `{ r: num >> 16 & 0xff, g: num >> 8 & 0xff, b: num & 0xff }` for a 24-bit `num`. */
  function Split24(num: nat): (c: Rgb)
    requires num < 0x100_0000
    ensures IsChannel(c.r) && IsChannel(c.g) && IsChannel(c.b)
  {
    Rgb(num / 0x1_0000, (num / 0x100) % 0x100, num % 0x100)
  }

  /** The six digits of a colour are three two-digit channels, red first. */
  lemma ChannelDigits(hex: string)
    requires IsHexColor(hex)
    ensures Split24(ColorValue(hex)) == Rgb(ParseHex(hex[1..3]), ParseHex(hex[3..5]), ParseHex(hex[5..7]))
  {
    var d := hex[1..];
    assert d[..2] == hex[1..3] && d[2..4] == hex[3..5] && d[4..6] == hex[5..7];
    Parse6(d);
    var r, g, b := ParseHex(hex[1..3]), ParseHex(hex[3..5]), ParseHex(hex[5..7]);
    Parse2(hex[1..3]);
    Parse2(hex[3..5]);
    Parse2(hex[5..7]);
    DivMod24(r, g, b);
  }

  lemma DivMod24(r: nat, g: nat, b: nat)
    requires r < 256 && g < 256 && b < 256
    ensures var num := r * 65536 + g * 256 + b;
            num / 0x1_0000 == r && (num / 0x100) % 0x100 == g && num % 0x100 == b
  {
    var num := r * 65536 + g * 256 + b;
    assert num / 0x100 == r * 256 + g;
  }

  lemma ToHexStep(n: nat)
    requires n >= 16
    ensures ToHex(n) == ToHex(n / 16) + [HexChar(n % 16)]
  {
  }

  lemma DivBy16(q: int, d: int)
    requires 0 <= d < 16
    ensures (16 * q + d) / 16 == q && (16 * q + d) % 16 == d
  {
  }

  /** Appending a digit to a numeral is multiplying by 16 and adding the digit. */
  lemma ToHexAppend(q: nat, d: nat)
    requires q >= 1 && d < 16
    ensures ToHex(16 * q + d) == ToHex(q) + [HexChar(d)]
  {
    DivBy16(q, d);
    ToHexStep(16 * q + d);
  }

  /** Appending a channel's two digits is multiplying by 256 and adding the channel. */
  lemma ToHexAppendPair(q: nat, x: nat)
    requires q >= 1 && x < 256
    ensures ToHex(256 * q + x) == ToHex(q) + Pair(x)
  {
    ToHexAppend(q, x / 16);
    ToHexAppend(16 * q + x / 16, x % 16);
    assert 16 * (16 * q + x / 16) + x % 16 == 256 * q + x;
  }

  lemma ToHexOne()
    ensures ToHex(1) == "1"
  {
    assert HexChar(1) == '1';
  }

  lemma ToHexRed(r: nat)
    requires r < 256
    ensures ToHex(256 + r) == "1" + Pair(r)
  {
    ToHexAppendPair(1, r);
    ToHexOne();
  }

  lemma ToHexRedGreen(r: nat, g: nat)
    requires r < 256 && g < 256
    ensures ToHex(256 * (256 + r) + g) == "1" + Pair(r) + Pair(g)
  {
    ToHexAppendPair(256 + r, g);
    ToHexRed(r);
  }

  /** The numeral of `256 * (256 * (256 + r) + g) + b` is `1` and three two-digit channels. */
  lemma ToHexNested(r: nat, g: nat, b: nat)
    requires r < 256 && g < 256 && b < 256
    ensures ToHex(256 * (256 * (256 + r) + g) + b) == "1" + Pair(r) + Pair(g) + Pair(b)
  {
    ToHexAppendPair(256 * (256 + r) + g, b);
    ToHexRedGreen(r, g);
  }

  /**
   * `(0x1000000 + r * 0x10000 + g * 0x100 + b).toString(16)` for three channels is
   * `1` followed by the three two-digit channels.
   */
  lemma ToHexOfTagged(r: nat, g: nat, b: nat)
    requires r < 256 && g < 256 && b < 256
    ensures ToHex(0x100_0000 + r * 0x1_0000 + g * 0x100 + b) == "1" + Pair(r) + Pair(g) + Pair(b)
  {
    var n := 256 * (256 * (256 + r) + g) + b;
    assert n == 0x100_0000 + r * 0x1_0000 + g * 0x100 + b;
    ToHexNested(r, g, b);
  }

  /** The six-digit string of three channels, as the helpers assemble it. */
  function Compose(r: nat, g: nat, b: nat): (s: string)
    requires r < 256 && g < 256 && b < 256
    ensures IsLowerHexColor(s)
  {
    "#" + Pair(r) + Pair(g) + Pair(b)
  }

  /** Reading back a composed colour gives its channels. */
  lemma ComposeChannels(r: nat, g: nat, b: nat)
    requires r < 256 && g < 256 && b < 256
    ensures IsHexColor(Compose(r, g, b))
    ensures Split24(ColorValue(Compose(r, g, b))) == Rgb(r, g, b)
  {
    var s := Compose(r, g, b);
    assert s[1..3] == Pair(r) && s[3..5] == Pair(g) && s[5..7] == Pair(b);
    ChannelDigits(s);
  }

  /** `"#" + (0x1000000 + r * 0x10000 + g * 0x100 + b).toString(16).slice(1)` */
  function Tagged(r: nat, g: nat, b: nat): string {
    var digits := ToHex(0x100_0000 + r * 0x1_0000 + g * 0x100 + b);
    "#" + digits[1..]
  }

  lemma TaggedIsCompose(r: nat, g: nat, b: nat)
    requires r < 256 && g < 256 && b < 256
    ensures Tagged(r, g, b) == Compose(r, g, b)
  {
    ToHexOfTagged(r, g, b);
    assert ("1" + Pair(r) + Pair(g) + Pair(b))[1..] == Pair(r) + Pair(g) + Pair(b);
  }

  /** `R < 255 ? (R < 1 ? 0 : R) : 255` */
  function ClampUp(x: int): (y: nat)
    ensures y < 256
  {
    if x < 255 then (if x < 1 then 0 else x) else 255
  }

  /** `R > 0 ? R : 0` */
  function ClampDown(x: int): nat {
    if x > 0 then x else 0
  }

  /** The lighten helper: every channel raised by `amt` and clamped to 0..255. */
  function Lighten(hex: string, amt: int): (s: string)
    requires IsHexColor(hex)
    ensures IsLowerHexColor(s)
    ensures var c := Split24(ColorValue(hex));
            Split24(ColorValue(s))
              == Rgb(Clamp(c.r + amt), Clamp(c.g + amt), Clamp(c.b + amt))
  {
    var c := Split24(ColorValue(hex));
    var r, g, b := ClampUp(c.r + amt), ClampUp(c.g + amt), ClampUp(c.b + amt);
    TaggedIsCompose(r, g, b);
    ComposeChannels(r, g, b);
    Tagged(r, g, b)
  }

  /** The darken helper: every channel lowered by `amt`, never below 0. */
  function Darken(hex: string, amt: int): (s: string)
    requires IsHexColor(hex)
    ensures amt >= 0 ==> IsLowerHexColor(s)
    ensures amt >= 0 ==>
              var c := Split24(ColorValue(hex));
              Split24(ColorValue(s))
                == Rgb(Clamp(c.r - amt), Clamp(c.g - amt), Clamp(c.b - amt))
  {
    var c := Split24(ColorValue(hex));
    var r, g, b := ClampDown(c.r - amt), ClampDown(c.g - amt), ClampDown(c.b - amt);
    if amt < 0 then Tagged(r, g, b)
    else
      TaggedIsCompose(r, g, b);
      ComposeChannels(r, g, b);
      Tagged(r, g, b)
  }

  /** The mathematical clamp to 0..255, stated independently of the source's conditionals. */
  function Clamp(x: int): int {
    if x < 0 then 0 else if x > 255 then 255 else x
  }
}
