/**
 * `Color(hex:)`: the string is trimmed of non-alphanumerics, scanned as a
 * hexadecimal number, and split into alpha, red, green and blue by the
 * trimmed length.  Components are the integers before the division by 255.
 */
module Theme {
  import opened Strings

  /** Membership in `CharacterSet.alphanumerics`, for ASCII characters. */
  predicate IsAlphanumeric(c: char) {
    ('0' <= c <= '9') || ('a' <= c <= 'z') || ('A' <= c <= 'Z')
  }

  predicate NotAlphanumeric(c: char) {
    !IsAlphanumeric(c)
  }

  predicate IsHexDigit(c: char) {
    ('0' <= c <= '9') || ('a' <= c <= 'f') || ('A' <= c <= 'F')
  }

  function HexDigitValue(c: char): (d: nat)
    requires IsHexDigit(c)
    ensures d < 16
  {
    if '0' <= c <= '9' then c as int - '0' as int
    else if 'a' <= c <= 'f' then c as int - 'a' as int + 10
    else c as int - 'A' as int + 10
  }

  function Pow16(n: nat): (p: nat)
    ensures p >= 1
  {
    if n == 0 then 1 else 16 * Pow16(n - 1)
  }

  /** The number a string of hex digits denotes, most significant first. */
  function HexValue(s: string): (v: nat)
    requires forall i :: 0 <= i < |s| ==> IsHexDigit(s[i])
    ensures v < Pow16(|s|)
  {
    if s == [] then 0
    else 16 * HexValue(s[..|s| - 1]) + HexDigitValue(s[|s| - 1])
  }

  lemma {:induction false} Pow16Monotone(m: nat, n: nat)
    requires m <= n
    ensures Pow16(m) <= Pow16(n)
  {
    if m < n {
      Pow16Monotone(m, n - 1);
    }
  }

  /** The largest `UInt64`. */
  const UInt64Max: nat := 0xFFFF_FFFF_FFFF_FFFF

  /** The digits `scanHexInt64` reads: the longest run of hex digits, after an optional "0x" or "0X". */
  function ScannedDigits(t: string): (digits: string)
    ensures |digits| <= |t|
    ensures forall i :: 0 <= i < |digits| ==> IsHexDigit(digits[i])
  {
    var body := if |t| >= 3 && t[0] == '0' && (t[1] == 'x' || t[1] == 'X') && IsHexDigit(t[2]) then t[2..] else t;
    body[..Leading(body, IsHexDigit)]
  }

  /**
   * `scanHexInt64`: the value of the scanned digits, `UInt64.max` when it
   * does not fit, 0 when there are no digits.  It never exceeds what
   * `|t|` hex digits can hold.
   */
  function ScanHex(t: string): (v: nat)
    ensures v <= UInt64Max
    ensures v < Pow16(|t|)
  {
    var digits := ScannedDigits(t);
    Pow16Monotone(|digits|, |t|);
    var value := HexValue(digits);
    if value > UInt64Max then UInt64Max else value
  }

  /** Opacity, red, green and blue, as integers 0 to 255 before the division by 255. */
  datatype Argb = Argb(a: nat, r: nat, g: nat, b: nat)

  predicate Bounded(c: Argb) {
    c.a <= 255 && c.r <= 255 && c.g <= 255 && c.b <= 255
  }

  /**
   * `Color(hex:)`'s components: 3 digits are nibbles scaled by 17, 6 digits
   * are bytes, 8 digits put the alpha byte first; any other trimmed length
   * gives opaque black.  Every component is at most 255.
   */
  function ParseHexColor(hex: string): (c: Argb)
    ensures Bounded(c)
    ensures |TrimBy(hex, NotAlphanumeric)| !in {3, 6, 8} ==> c == Argb(255, 0, 0, 0)
    ensures |TrimBy(hex, NotAlphanumeric)| != 8 ==> c.a == 255
  {
    var t := TrimBy(hex, NotAlphanumeric);
    var v := ScanHex(t);
    ComponentBounds(v, |t|);
    if |t| == 3 then
      Argb(255, (v / 0x100) * 17, (v / 0x10 % 0x10) * 17, (v % 0x10) * 17)
    else if |t| == 6 then
      Argb(255, v / 0x1_0000, v / 0x100 % 0x100, v % 0x100)
    else if |t| == 8 then
      Argb(v / 0x100_0000, v / 0x1_0000 % 0x100, v / 0x100 % 0x100, v % 0x100)
    else
      Argb(255, 0, 0, 0)
  }

  /** What a value of `n` hex digits leaves for each component of its case. */
  lemma ComponentBounds(v: nat, n: nat)
    requires v < Pow16(n)
    ensures n == 3 ==> (v / 0x100) * 17 <= 255 && (v / 0x10 % 0x10) * 17 <= 255 && (v % 0x10) * 17 <= 255
    ensures n == 6 ==> v / 0x1_0000 <= 255
    ensures n == 8 ==> v / 0x100_0000 <= 255
  {
    if n == 3 {
      assert Pow16(3) == 0x1000;
      assert v / 0x100 <= 15;
    } else if n == 6 {
      assert Pow16(6) == 0x100_0000;
    } else if n == 8 {
      assert Pow16(8) == 0x1_0000_0000;
    }
  }

  // ---------------------------------------------------------------------
  // Formatting, and the round trips

  function HexChar(d: nat): (c: char)
    requires d < 16
    ensures IsHexDigit(c) && IsAlphanumeric(c) && c != 'x' && c != 'X'
    ensures HexDigitValue(c) == d
  {
    if d < 10 then ('0' as int + d) as char else ('A' as int + d - 10) as char
  }

  /** A byte as two upper-case hex digits. */
  function Byte(n: nat): string
    requires n < 256
  {
    [HexChar(n / 16), HexChar(n % 16)]
  }

  /** `"#RRGGBB"`. */
  function Format6(r: nat, g: nat, b: nat): (s: string)
    requires r < 256 && g < 256 && b < 256
    ensures |s| == 7 && s[0] == '#'
  {
    "#" + Byte(r) + Byte(g) + Byte(b)
  }

  /** `"#AARRGGBB"`. */
  function Format8(a: nat, r: nat, g: nat, b: nat): (s: string)
    requires a < 256 && r < 256 && g < 256 && b < 256
    ensures |s| == 9 && s[0] == '#'
  {
    "#" + Byte(a) + Byte(r) + Byte(g) + Byte(b)
  }

  /** `"#RGB"`. */
  function Format3(r: nat, g: nat, b: nat): (s: string)
    requires r < 16 && g < 16 && b < 16
    ensures |s| == 4 && s[0] == '#'
  {
    "#" + [HexChar(r), HexChar(g), HexChar(b)]
  }

  /** A leading '#' is trimmed away from a string of alphanumerics. */
  lemma TrimHash(digits: string)
    requires digits != [] && forall i :: 0 <= i < |digits| ==> IsAlphanumeric(digits[i])
    ensures TrimBy("#" + digits, NotAlphanumeric) == digits
  {
    var s := "#" + digits;
    assert s[1..] == digits;
    assert Leading(digits, NotAlphanumeric) == 0;
    assert Leading(s, NotAlphanumeric) == 1;
    var r := TrimBy(s, NotAlphanumeric);
    assert |r| == |digits|;
  }

  /** A string of hex digits that does not start with "0x" scans to its value. */
  lemma ScanAllDigits(digits: string)
    requires forall i :: 0 <= i < |digits| ==> IsHexDigit(digits[i])
    requires |digits| >= 2 ==> digits[1] != 'x' && digits[1] != 'X'
    requires HexValue(digits) <= UInt64Max
    ensures ScanHex(digits) == HexValue(digits)
  {
    assert Leading(digits, IsHexDigit) == |digits|;
    assert digits[..|digits|] == digits;
  }

  /** The value of a hex string extended by one digit. */
  lemma HexValueSnoc(s: string, c: char)
    requires forall i :: 0 <= i < |s| ==> IsHexDigit(s[i])
    requires IsHexDigit(c)
    ensures forall i :: 0 <= i < |s + [c]| ==> IsHexDigit((s + [c])[i])
    ensures HexValue(s + [c]) == 16 * HexValue(s) + HexDigitValue(c)
  {
    assert (s + [c])[..|s|] == s;
  }

  /** The value of two bytes' worth of digits placed after `s`. */
  lemma HexValueByte(s: string, n: nat)
    requires forall i :: 0 <= i < |s| ==> IsHexDigit(s[i])
    requires n < 256
    ensures forall i :: 0 <= i < |s + Byte(n)| ==> IsHexDigit((s + Byte(n))[i])
    ensures HexValue(s + Byte(n)) == 256 * HexValue(s) + n
  {
    var hi, lo := HexChar(n / 16), HexChar(n % 16);
    HexValueSnoc(s, hi);
    HexValueSnoc(s + [hi], lo);
    assert s + Byte(n) == s + [hi] + [lo];
  }

  /** Six formatted digits parse back to the three bytes, fully opaque. */
  lemma ParseFormat6(r: nat, g: nat, b: nat)
    requires r < 256 && g < 256 && b < 256
    ensures ParseHexColor(Format6(r, g, b)) == Argb(255, r, g, b)
  {
    var digits := Byte(r) + Byte(g) + Byte(b);
    assert Format6(r, g, b) == "#" + digits;
    TrimHash(digits);
    HexValueByte([], r);
    assert [] + Byte(r) == Byte(r);
    HexValueByte(Byte(r), g);
    HexValueByte(Byte(r) + Byte(g), b);
    var v := HexValue(digits);
    assert v == r * 0x1_0000 + g * 0x100 + b;
    ScanAllDigits(digits);
    ByteSplit3(r, g, b, v);
  }

  /** Splitting a three-byte value back into its bytes. */
  lemma ByteSplit3(r: nat, g: nat, b: nat, v: nat)
    requires r < 256 && g < 256 && b < 256
    requires v == r * 0x1_0000 + g * 0x100 + b
    ensures v / 0x1_0000 == r && v / 0x100 % 0x100 == g && v % 0x100 == b
  {
    assert v / 0x100 == r * 0x100 + g;
  }

  /** Eight formatted digits parse back to alpha and the three bytes. */
  lemma ParseFormat8(a: nat, r: nat, g: nat, b: nat)
    requires a < 256 && r < 256 && g < 256 && b < 256
    ensures ParseHexColor(Format8(a, r, g, b)) == Argb(a, r, g, b)
  {
    var digits := Byte(a) + Byte(r) + Byte(g) + Byte(b);
    assert Format8(a, r, g, b) == "#" + digits;
    TrimHash(digits);
    HexValueByte([], a);
    assert [] + Byte(a) == Byte(a);
    HexValueByte(Byte(a), r);
    HexValueByte(Byte(a) + Byte(r), g);
    HexValueByte(Byte(a) + Byte(r) + Byte(g), b);
    var v := HexValue(digits);
    assert v == a * 0x100_0000 + r * 0x1_0000 + g * 0x100 + b;
    ScanAllDigits(digits);
    ByteSplit4(a, r, g, b, v);
  }

  /** Splitting a four-byte value back into its bytes. */
  lemma ByteSplit4(a: nat, r: nat, g: nat, b: nat, v: nat)
    requires a < 256 && r < 256 && g < 256 && b < 256
    requires v == a * 0x100_0000 + r * 0x1_0000 + g * 0x100 + b
    ensures v / 0x100_0000 == a && v / 0x1_0000 % 0x100 == r && v / 0x100 % 0x100 == g && v % 0x100 == b
  {
    assert v / 0x100 == a * 0x1_0000 + r * 0x100 + g;
    assert v / 0x1_0000 == a * 0x100 + r;
  }

  /** Three formatted digits parse back to each nibble times 17, fully opaque. */
  lemma ParseFormat3(r: nat, g: nat, b: nat)
    requires r < 16 && g < 16 && b < 16
    ensures ParseHexColor(Format3(r, g, b)) == Argb(255, r * 17, g * 17, b * 17)
  {
    var digits := [HexChar(r), HexChar(g), HexChar(b)];
    assert Format3(r, g, b) == "#" + digits;
    TrimHash(digits);
    HexValue3(r, g, b);
    ScanAllDigits(digits);
    NibbleSplit3(r, g, b, HexValue(digits));
  }

  /** The value of three nibble digits. */
  lemma HexValue3(r: nat, g: nat, b: nat)
    requires r < 16 && g < 16 && b < 16
    ensures HexValue([HexChar(r), HexChar(g), HexChar(b)]) == r * 0x100 + g * 0x10 + b
  {
    HexValueSnoc([], HexChar(r));
    assert [] + [HexChar(r)] == [HexChar(r)];
    HexValueSnoc([HexChar(r)], HexChar(g));
    assert [HexChar(r)] + [HexChar(g)] == [HexChar(r), HexChar(g)];
    HexValueSnoc([HexChar(r), HexChar(g)], HexChar(b));
    assert [HexChar(r), HexChar(g)] + [HexChar(b)] == [HexChar(r), HexChar(g), HexChar(b)];
  }

  /** Splitting a three-nibble value back into its nibbles. */
  lemma NibbleSplit3(r: nat, g: nat, b: nat, v: nat)
    requires r < 16 && g < 16 && b < 16
    requires v == r * 0x100 + g * 0x10 + b
    ensures v / 0x100 == r && v / 0x10 % 0x10 == g && v % 0x10 == b
  {
    assert v / 0x10 == r * 0x10 + g;
  }

  /** The app's palette. */
  const Primary: string := "#728156"
  const Secondary: string := "#98A77C"
  const Background: string := "#E7F5DC"
  const Card: string := "#CFE1B9"
  const Muted: string := "#88976C"

  lemma PrimaryComponents()
    ensures ParseHexColor(Primary) == Argb(255, 0x72, 0x81, 0x56)
  {
    assert Format6(0x72, 0x81, 0x56) == Primary;
    ParseFormat6(0x72, 0x81, 0x56);
  }

  lemma SecondaryComponents()
    ensures ParseHexColor(Secondary) == Argb(255, 0x98, 0xA7, 0x7C)
  {
    assert Format6(0x98, 0xA7, 0x7C) == Secondary;
    ParseFormat6(0x98, 0xA7, 0x7C);
  }

  lemma BackgroundComponents()
    ensures ParseHexColor(Background) == Argb(255, 0xE7, 0xF5, 0xDC)
  {
    assert Format6(0xE7, 0xF5, 0xDC) == Background;
    ParseFormat6(0xE7, 0xF5, 0xDC);
  }

  lemma CardComponents()
    ensures ParseHexColor(Card) == Argb(255, 0xCF, 0xE1, 0xB9)
  {
    assert Format6(0xCF, 0xE1, 0xB9) == Card;
    ParseFormat6(0xCF, 0xE1, 0xB9);
  }

  lemma MutedComponents()
    ensures ParseHexColor(Muted) == Argb(255, 0x88, 0x97, 0x6C)
  {
    assert Format6(0x88, 0x97, 0x6C) == Muted;
    ParseFormat6(0x88, 0x97, 0x6C);
  }

  /** A string with nothing alphanumeric in it gives opaque black. */
  lemma NoDigitsIsBlack(hex: string)
    requires forall i :: 0 <= i < |hex| ==> !IsAlphanumeric(hex[i])
    ensures ParseHexColor(hex) == Argb(255, 0, 0, 0)
  {
  }
}
