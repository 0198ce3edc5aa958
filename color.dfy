/** Colour helpers (src/color.ts): two-digit hex formatting, CSS `rgb(...)`
    strings and the brightness estimate used to pick die-line colours. */
module Color {
  import opened Wrappers
  import opened Types

  // ---------------------------------------------------------------------
  // Hexadecimal digits, as `Number.prototype.toString(16)` writes them
  // ---------------------------------------------------------------------

  const HexAlphabet: string := "0123456789abcdef"

  function HexDigit(d: nat): (c: char)
    requires d < 16
  {
    HexAlphabet[d]
  }

  /** The value of a lowercase hex digit, if it is one. */
  function HexValue(c: char): (v: Option<nat>)
    ensures v.Some? ==> v.value < 16 && HexDigit(v.value) == c
  {
    if '0' <= c <= '9' then Some((c - '0') as nat)
    else if 'a' <= c <= 'f' then Some((c - 'a') as nat + 10)
    else None
  }

  lemma HexValueOfDigit(d: nat)
    requires d < 16
    ensures HexValue(HexDigit(d)) == Some(d)
  {
  }

  /** The digits of a non-negative integer in base 16, most significant
      first, without leading zeros ("0" for zero). */
  function HexDigits(n: nat): (s: string)
    ensures |s| >= 1
  {
    if n < 16 then [HexDigit(n)] else HexDigits(n / 16) + [HexDigit(n % 16)]
  }

  /** `n.toString(16)` for an integer: a minus sign, then the digits of the
      magnitude. */
  function Radix16(n: int): string
  {
    if n < 0 then "-" + HexDigits(-n) else HexDigits(n)
  }

  /** `toHex`: pad with two zeros and keep the last two characters. */
  function ToHex(n: int): (s: string)
    ensures |s| == 2
  {
    var t := "00" + Radix16(n);
    t[|t| - 2..]
  }

  /** The two characters `toHex` keeps from a non-negative integer are its
      two least significant hex digits. */
  lemma {:induction false} ToHexLastDigits(n: nat)
    ensures ToHex(n) == [HexDigit((n / 16) % 16), HexDigit(n % 16)]
  {
    if n >= 256 {
      ToHexLong(n);
    } else if n >= 16 {
      ToHexTwoDigits(n);
    } else {
      ToHexOneDigit(n);
    }
  }

  lemma ToHexOneDigit(n: nat)
    requires n < 16
    ensures ToHex(n) == [HexDigit((n / 16) % 16), HexDigit(n % 16)]
  {
    var c := HexDigit(n);
    assert n / 16 == 0 && n % 16 == n && HexDigit(0) == '0';
    assert Radix16(n) == [c];
    var t := "00" + [c];
    assert |t| == 3 && t[1] == '0' && t[2] == c;
    assert t[1..] == ['0', c];
  }

  lemma ToHexLong(n: nat)
    requires n >= 256
    ensures ToHex(n) == [HexDigit((n / 16) % 16), HexDigit(n % 16)]
  {
    var q := n / 16;
    assert q >= 16;
    var hi, lo := HexDigit(q % 16), HexDigit(n % 16);
    assert HexDigits(n) == HexDigits(q) + [lo];
    assert HexDigits(q) == HexDigits(q / 16) + [hi];
    LastTwo("00", HexDigits(q / 16), hi, lo);
  }

  lemma ToHexTwoDigits(n: nat)
    requires 16 <= n < 256
    ensures ToHex(n) == [HexDigit((n / 16) % 16), HexDigit(n % 16)]
  {
    assert n / 16 < 16;
    assert (n / 16) % 16 == n / 16;
    assert HexDigits(n) == [HexDigit(n / 16), HexDigit(n % 16)];
  }

  lemma LastTwo(p: string, s: string, a: char, b: char)
    ensures var t := p + (s + [a] + [b]); t[|t| - 2..] == [a, b]
  {
    var t := p + (s + [a] + [b]);
    assert t[|t| - 2] == a && t[|t| - 1] == b;
  }

  /** For a channel in 0..255, `toHex` is exactly two lowercase hex digits
      whose value is the channel. */
  lemma ToHexByte(n: int)
    requires 0 <= n <= 255
    ensures ToHex(n) == [HexDigit(n / 16), HexDigit(n % 16)]
    ensures HexByte(ToHex(n)) == Some(n)
  {
    Nibbles(n);
    ToHexLastDigits(n);
    HexByteOf(n / 16, n % 16);
  }

  lemma Nibbles(n: int)
    requires 0 <= n <= 255
    ensures n / 16 < 16 && (n / 16) % 16 == n / 16 && (n / 16) * 16 + n % 16 == n
  {
  }

  /** Two hex digits read back as the byte they spell. */
  lemma HexByteOf(hi: nat, lo: nat)
    requires hi < 16 && lo < 16
    ensures HexByte([HexDigit(hi), HexDigit(lo)]) == Some(hi * 16 + lo)
  {
    HexValueOfDigit(hi);
    HexValueOfDigit(lo);
  }

  /** Above 255 only the last two hex digits survive. */
  lemma ToHexWraps(n: nat)
    ensures ToHex(n) == ToHex(n % 256)
  {
    ToHexLastDigits(n);
    ToHexLastDigits(n % 256);
    ByteDigits(n);
  }

  lemma ByteDigits(n: nat)
    ensures ((n % 256) / 16) % 16 == (n / 16) % 16
    ensures (n % 256) % 16 == n % 16
  {
    var q := n / 256;
    var r := n % 256;
    assert n == 256 * q + r;
    assert n / 16 == 16 * q + r / 16;
    assert r / 16 < 16;
    assert (n / 16) % 16 == r / 16;
    assert n % 16 == r % 16;
  }

  /** A negative channel keeps its minus sign when its magnitude has one
      hex digit (-5 gives "-5"). */
  lemma ToHexNegative(n: int)
    requires -15 <= n <= -1
    ensures ToHex(n) == ['-', HexDigit(-n)]
  {
  }

  /** Reads two hex digits back as a byte. */
  function HexByte(s: string): (v: Option<int>)
    requires |s| == 2
    ensures v.Some? ==> 0 <= v.value <= 255
  {
    match (HexValue(s[0]), HexValue(s[1]))
    case (Some(hi), Some(lo)) => Some(hi * 16 + lo)
    case _ => None
  }

  // ---------------------------------------------------------------------
  // colorToHex
  // ---------------------------------------------------------------------

  /** `colorToHex`: "#rrggbb". */
  function ColorToHex(c: RGB): (s: string)
    ensures |s| == 7 && s[0] == '#'
    ensures s[1..3] == ToHex(c.r) && s[3..5] == ToHex(c.g) && s[5..7] == ToHex(c.b)
  {
    "#" + ToHex(c.r) + ToHex(c.g) + ToHex(c.b)
  }

  /** The inverse of `colorToHex` on well-formed "#rrggbb" strings. */
  function ParseHexColor(s: string): Option<RGB>
  {
    if |s| != 7 || s[0] != '#' then None
    else match (HexByte(s[1..3]), HexByte(s[3..5]), HexByte(s[5..7]))
      case (Some(r), Some(g), Some(b)) => Some(RGB(r, g, b))
      case _ => None
  }

  predicate IsByteColor(c: RGB)
  {
    0 <= c.r <= 255 && 0 <= c.g <= 255 && 0 <= c.b <= 255
  }

  /** A colour with channels in 0..255 is read back from its hex string. */
  lemma HexRoundTrip(c: RGB)
    requires IsByteColor(c)
    ensures ParseHexColor(ColorToHex(c)) == Some(c)
  {
    ToHexByte(c.r);
    ToHexByte(c.g);
    ToHexByte(c.b);
  }

  /** Non-negative channels above 255 are reduced modulo 256. */
  lemma HexWraps(c: RGB)
    requires c.r >= 0 && c.g >= 0 && c.b >= 0
    ensures ParseHexColor(ColorToHex(c)) == Some(RGB(c.r % 256, c.g % 256, c.b % 256))
  {
    ToHexWraps(c.r);
    ToHexWraps(c.g);
    ToHexWraps(c.b);
    HexRoundTrip(RGB(c.r % 256, c.g % 256, c.b % 256));
  }

  // ---------------------------------------------------------------------
  // colorToRgb
  // ---------------------------------------------------------------------

  predicate IsDigit(c: char) { '0' <= c <= '9' }

  /** The decimal digits of a natural number, most significant first. */
  function DecimalDigits(n: nat): (s: string)
    ensures |s| >= 1
  {
    if n < 10 then [('0' as int + n) as char]
    else DecimalDigits(n / 10) + [('0' as int + n % 10) as char]
  }

  lemma {:induction false} DecimalDigitsAreDigits(n: nat)
    ensures forall i :: 0 <= i < |DecimalDigits(n)| ==> IsDigit(DecimalDigits(n)[i])
  {
    if n >= 10 {
      DecimalDigitsAreDigits(n / 10);
    }
  }

  /** How a JavaScript template literal writes an integer. */
  function Decimal(n: int): string
  {
    if n < 0 then "-" + DecimalDigits(-n) else DecimalDigits(n)
  }

  /** `colorToRgb`: "rgb(r, g, b)". */
  function ColorToRgb(c: RGB): (s: string)
    ensures |s| >= 12 && s[..4] == "rgb(" && s[|s| - 1] == ')'
  {
    "rgb(" + Decimal(c.r) + ", " + Decimal(c.g) + ", " + Decimal(c.b) + ")"
  }

  /** The value of a non-empty run of decimal digits. */
  function DigitsValue(s: string): (v: Option<nat>)
  {
    if |s| == 0 || !IsDigit(s[|s| - 1]) then None
    else if |s| == 1 then Some((s[0] - '0') as nat)
    else match DigitsValue(s[..|s| - 1])
      case Some(high) => Some(high * 10 + (s[|s| - 1] - '0') as nat)
      case None => None
  }

  /** An optional minus sign followed by decimal digits. */
  function IntValue(s: string): Option<int>
  {
    if |s| > 0 && s[0] == '-' then
      match DigitsValue(s[1..])
      case Some(m) => Some(-(m as int))
      case None => None
    else
      match DigitsValue(s)
      case Some(m) => Some(m)
      case None => None
  }

  lemma {:induction false} DigitsValueOf(n: nat)
    ensures DigitsValue(DecimalDigits(n)) == Some(n)
  {
    DecimalDigitsAreDigits(n);
    if n >= 10 {
      var s := DecimalDigits(n);
      DigitsValueOf(n / 10);
      assert s[..|s| - 1] == DecimalDigits(n / 10);
    }
  }

  lemma DecimalValue(n: int)
    ensures IntValue(Decimal(n)) == Some(n)
  {
    var m: nat := if n < 0 then -n else n;
    var d := DecimalDigits(m);
    DecimalDigitsAreDigits(m);
    DigitsValueOf(m);
    if n < 0 {
      NegatedValue(d, m);
    } else {
      UnsignedValue(d, m);
    }
  }

  lemma UnsignedValue(d: string, m: nat)
    requires |d| >= 1 && IsDigit(d[0]) && DigitsValue(d) == Some(m)
    ensures IntValue(d) == Some(m as int)
  {
    assert d[0] != '-';
  }

  lemma NegatedValue(d: string, m: nat)
    requires DigitsValue(d) == Some(m)
    ensures IntValue("-" + d) == Some(-(m as int))
  {
    assert ("-" + d)[1..] == d;
  }

  /** Splits a string at every comma. */
  function SplitCommas(s: string): (parts: seq<string>)
    ensures |parts| >= 1
  {
    if |s| == 0 then [""]
    else if s[0] == ',' then [""] + SplitCommas(s[1..])
    else
      var rest := SplitCommas(s[1..]);
      [[s[0]] + rest[0]] + rest[1..]
  }

  lemma {:induction false} SplitAfter(a: string, b: string)
    requires ',' !in a
    ensures SplitCommas(a + "," + b) == [a] + SplitCommas(b)
  {
    if |a| > 0 {
      assert (a + "," + b)[1..] == a[1..] + "," + b;
      SplitAfter(a[1..], b);
      assert [a[0]] + a[1..] == a;
    } else {
      assert a + "," + b == "," + b;
    }
  }

  lemma {:induction false} SplitNone(a: string)
    requires ',' !in a
    ensures SplitCommas(a) == [a]
  {
    if |a| > 0 {
      SplitNone(a[1..]);
      assert [a[0]] + a[1..] == a;
    }
  }

  /** The inverse of `colorToRgb`: "rgb(" then three integers separated by
      ", " then ")". */
  function ParseRgb(s: string): Option<RGB>
  {
    if |s| < 5 || s[..4] != "rgb(" || s[|s| - 1] != ')' then None
    else
      var parts := SplitCommas(s[4..|s| - 1]);
      if |parts| != 3 || |parts[1]| == 0 || parts[1][0] != ' ' || |parts[2]| == 0 || parts[2][0] != ' ' then None
      else match (IntValue(parts[0]), IntValue(parts[1][1..]), IntValue(parts[2][1..]))
        case (Some(r), Some(g), Some(b)) => Some(RGB(r, g, b))
        case _ => None
  }

  lemma NoComma(n: int)
    ensures ',' !in Decimal(n) && ',' !in " " + Decimal(n)
  {
    var d := if n < 0 then DecimalDigits(-n) else DecimalDigits(n);
    DecimalDigitsAreDigits(if n < 0 then -n else n);
    assert forall i :: 0 <= i < |d| ==> d[i] != ',';
  }

  /** `colorToRgb` writes every integer colour so that it can be read back. */
  lemma RgbRoundTrip(c: RGB)
    ensures ParseRgb(ColorToRgb(c)) == Some(c)
  {
    NoComma(c.r);
    NoComma(c.g);
    NoComma(c.b);
    DecimalValue(c.r);
    DecimalValue(c.g);
    DecimalValue(c.b);
    ParseFields(Decimal(c.r), Decimal(c.g), Decimal(c.b));
  }

  /** "rgb(" r ", " g ", " b ")" is read back field by field when no field
      holds a comma. */
  lemma ParseFields(r: string, g: string, b: string)
    requires ',' !in r && ',' !in " " + g && ',' !in " " + b
    ensures var parsed := ParseRgb("rgb(" + r + ", " + g + ", " + b + ")");
      match (IntValue(r), IntValue(g), IntValue(b))
      case (Some(x), Some(y), Some(z)) => parsed == Some(RGB(x, y, z))
      case _ => parsed == None
  {
    var s := "rgb(" + r + ", " + g + ", " + b + ")";
    var inner := r + ", " + g + ", " + b;
    assert s == "rgb(" + inner + ")";
    assert s[..4] == "rgb(";
    assert s[4..|s| - 1] == inner;
    assert inner == r + "," + ((" " + g) + "," + (" " + b));
    SplitAfter(r, (" " + g) + "," + (" " + b));
    SplitAfter(" " + g, " " + b);
    SplitNone(" " + b);
    var parts := SplitCommas(inner);
    assert parts == [r, " " + g, " " + b];
    assert parts[1][1..] == g;
    assert parts[2][1..] == b;
  }

  // ---------------------------------------------------------------------
  // luminosity
  // ---------------------------------------------------------------------

  /** `luminosity` as written: the green channel is weighted twice, once
      with green's coefficient and once with blue's, and the sum is divided
      by 125. */
  function Luminosity(c: RGB): (l: real)
    ensures 0 <= c.r <= 255 && 0 <= c.g <= 255 ==> 0.0 <= l <= 2.04
  {
    (c.r as real * 0.299 + c.g as real * 0.587 + c.g as real * 0.114) / 125.0
  }

  /** The brightness formula of the W3C accessibility guidance the source
      cites: (299 R + 587 G + 114 B) / 1000. */
  function Brightness(c: RGB): real
  {
    (c.r as real * 299.0 + c.g as real * 587.0 + c.b as real * 114.0) / 1000.0
  }

  /** The estimate ignores blue, is zero for black and grows with red and
      green. */
  lemma LuminosityShape(c: RGB, d: RGB)
    ensures Luminosity(c) == (0.299 * c.r as real + 0.701 * c.g as real) / 125.0
    ensures Luminosity(RGB(c.r, c.g, d.b)) == Luminosity(c)
    ensures Luminosity(RGB(0, 0, c.b)) == 0.0
    ensures c.r <= d.r && c.g <= d.g ==> Luminosity(c) <= Luminosity(d)
  {
  }

  /** It is the cited brightness divided by 125 exactly on the colours
      whose blue equals their green. */
  lemma LuminosityVsBrightness(c: RGB)
    ensures Luminosity(c) == Brightness(c) / 125.0 <==> c.b == c.g
  {
  }

  /** White comes out at 2.04, not in the 0..1 range the 0.7 threshold of
      the die-line colours suggests. */
  lemma LuminosityOfWhite()
    ensures Luminosity(RGB(255, 255, 255)) == 2.04
    ensures Luminosity(RGB(0, 0, 255)) == 0.0
  {
  }
}
