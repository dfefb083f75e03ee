/**
 * Hex colour parsing and linear mixing of two colours, as used for the persona themes.
 * `parseInt(s, 16)` is modelled after section 19.2.5 of ECMA-262: leading white space,
 * one sign and a `0x`/`0X` prefix are skipped, the longest run of hex digits that follows
 * is the value, and an empty run is NaN.
 */
module Colors {
  import opened Wrappers
  import opened Strings
  import opened Numbers

  type Byte = x: int | 0 <= x < 256

  datatype Rgb = Rgb(r: Byte, g: Byte, b: Byte)

  /** `s.replace(c, '')` with a one-character pattern string: only the first occurrence goes. */
  function RemoveFirst(s: string, c: char): (r: string)
    ensures c !in s ==> r == s
    ensures c in s ==> |r| == |s| - 1
  {
    if s == [] then []
    else if s[0] == c then s[1..]
    else [s[0]] + RemoveFirst(s[1..], c)
  }

  /** The character removed is the first occurrence, and the rest is kept in order. */
  lemma {:induction false} RemoveFirstAt(s: string, c: char, i: nat)
    requires i < |s| && s[i] == c && c !in s[..i]
    ensures RemoveFirst(s, c) == s[..i] + s[i + 1..]
  {
    if i > 0 {
      assert s[0] in s[..i];
      assert s[1..][..i - 1] == s[1..i];
      RemoveFirstAt(s[1..], c, i - 1);
      assert [s[0]] + s[1..i] == s[..i];
    }
  }

  /** The length of the run of hex digits at the front of `s`. */
  function HexRun(s: string): (n: nat)
    ensures n <= |s|
    ensures forall i :: 0 <= i < n ==> IsHexDigit(s[i])
    ensures n < |s| ==> !IsHexDigit(s[n])
  {
    if s == [] || !IsHexDigit(s[0]) then 0 else 1 + HexRun(s[1..])
  }

  /** The characters `parseInt(s, 16)` reads digits from: after white space, one sign and a `0x` prefix. */
  function HexBody(s: string): string {
    var t := TrimStart(s);
    var u := if t != [] && (t[0] == '-' || t[0] == '+') then t[1..] else t;
    if |u| >= 2 && u[0] == '0' && (u[1] == 'x' || u[1] == 'X') then u[2..] else u
  }

  function HexSign(s: string): int {
    var t := TrimStart(s);
    if t != [] && t[0] == '-' then -1 else 1
  }

  /** `parseInt(s, 16)`, with None standing for NaN. */
  function ParseIntHex(s: string): (r: Option<int>)
    ensures r.None? <==> HexRun(HexBody(s)) == 0
  {
    var body := HexBody(s);
    var n := HexRun(body);
    if n == 0 then None else Some(HexSign(s) * HexValue(body[..n]))
  }

  /** `hexToRgb`: None stands for `null`. */
  function HexToRgb(hex: string): (r: Option<Rgb>)
    ensures r.Some? ==> |RemoveFirst(hex, '#')| == 6
  {
    var normalized := RemoveFirst(hex, '#');
    if |normalized| != 6 then None
    else
      match ParseIntHex(normalized)
      case None => None
      case Some(num) => Some(Rgb(LowByte(ShiftRight(num, 16)), LowByte(ShiftRight(num, 8)), LowByte(num)))
  }

  /**
   * `hexToRgb` is null exactly when the text is not six characters once the first '#' is
   * removed, or when `parseInt` finds no hex digit to read.
   */
  lemma HexToRgbNull(hex: string)
    ensures var normalized := RemoveFirst(hex, '#');
      HexToRgb(hex).None? <==> |normalized| != 6 || HexRun(HexBody(normalized)) == 0
  {
  }

  /** The three bytes of a value below 2^24 are its channels. */
  lemma ByteSplit(v: int, x: Byte, y: Byte, z: Byte)
    requires v == x * 65536 + y * 256 + z
    ensures LowByte(ShiftRight(v, 16)) == x && LowByte(ShiftRight(v, 8)) == y && LowByte(v) == z
  {
    assert Pow2(8) == 256 && Pow2(16) == 65536;
    assert ToInt32(v) == v;
    assert v / 65536 == x;
    assert v / 256 == x * 256 + y;
    assert (x * 256 + y) % 256 == y;
  }

  /** Six hex digits, with or without a leading '#', read as three two-digit bytes. */
  lemma HexToRgbDigits(hex: string)
    requires var n := RemoveFirst(hex, '#'); |n| == 6 && AllHex(n)
    ensures var n := RemoveFirst(hex, '#');
      HexToRgb(hex) == Some(Rgb(HexValue(n[0..2]), HexValue(n[2..4]), HexValue(n[4..6])))
  {
    var n := RemoveFirst(hex, '#');
    DigitsParse(n);
    HexValueSix(n);
    ByteSplit(HexValue(n), HexValue(n[0..2]), HexValue(n[2..4]), HexValue(n[4..6]));
  }

  /** A text made of hex digits only is read whole by `parseInt(s, 16)`. */
  lemma DigitsParse(n: string)
    requires |n| >= 2 && AllHex(n)
    ensures ParseIntHex(n) == Some(HexValue(n))
  {
    assert IsHexDigit(n[0]) && IsHexDigit(n[1]);
    assert !IsJsSpace(n[0]);
    assert TrimStart(n) == n;
    assert n[0] != '-' && n[0] != '+' && n[1] != 'x' && n[1] != 'X';
    assert HexBody(n) == n;
    assert HexRun(n) == |n|;
    assert n[..|n|] == n;
  }

  lemma HexValueSix(n: string)
    requires |n| == 6 && AllHex(n)
    ensures HexValue(n[0..2]) < 256 && HexValue(n[2..4]) < 256 && HexValue(n[4..6]) < 256
    ensures HexValue(n) == HexValue(n[0..2]) * 65536 + HexValue(n[2..4]) * 256 + HexValue(n[4..6])
  {
    var x, y, z := HexValue(n[0..2]), HexValue(n[2..4]), HexValue(n[4..6]);
    var front := n[..4];
    assert Pow16(2) == 256;
    assert HexValue(front) == x * 256 + y by {
      assert n[0..2] == front[..2] && n[2..4] == front[2..];
      assert front[..2] + front[2..] == front;
      HexValueConcat(n[0..2], n[2..4]);
    }
    assert HexValue(n) == HexValue(front) * 256 + z by {
      assert n[4..6] == n[4..];
      assert front + n[4..] == n;
      HexValueConcat(front, n[4..6]);
    }
  }

  /** The channel value at fraction `t` of the way from `a` to `b`, rounded as `Math.round` does. */
  function Channel(a: Byte, b: Byte, t: real): (c: Byte)
    requires 0.0 <= t <= 1.0
    ensures t == 0.0 ==> c == a
    ensures t == 1.0 ==> c == b
    ensures (a <= c <= b) || (b <= c <= a)
  {
    var x := a as real + (b - a) as real * t;
    ChannelInRange(a, b, t);
    Round(x)
  }

  /** A point a fraction `t` of the way from `a` to `b` (by the difference `k`) lies between them. */
  lemma InterpolationBetween(a: real, b: real, k: real, t: real)
    requires 0.0 <= t <= 1.0 && k == b - a
    ensures a <= b ==> a <= a + k * t <= b
    ensures b < a ==> b <= a + k * t <= a
  {
  }

  lemma ChannelInRange(a: Byte, b: Byte, t: real)
    requires 0.0 <= t <= 1.0
    ensures var r := Round(a as real + (b - a) as real * t);
      (a <= b ==> a <= r <= b) && (b < a ==> b <= r <= a)
  {
    var x := a as real + (b - a) as real * t;
    InterpolationBetween(a as real, b as real, (b - a) as real, t);
    if a <= b {
      RoundBetween(x, a, b);
    } else {
      RoundBetween(x, b, a);
    }
  }

  function Mix(from: Rgb, to: Rgb, t: real): Rgb
    requires 0.0 <= t <= 1.0
  {
    Rgb(Channel(from.r, to.r, t), Channel(from.g, to.g, t), Channel(from.b, to.b, t))
  }

  /** `c.toString(16).padStart(2, '0')`. */
  function HexByte(c: Byte): (s: string)
    ensures s == [HexDigitChar(c / 16), HexDigitChar(c % 16)]
  {
    assert c >= 16 ==> ToHex(c) == ToHex(c / 16) + [HexDigitChar(c % 16)];
    PadStart(ToHex(c), 2, '0')
  }

  /** The `#rrggbb` text of a colour, lower-case. */
  function FormatHex(c: Rgb): string {
    "#" + HexByte(c.r) + HexByte(c.g) + HexByte(c.b)
  }

  /** `mixColor`: `to` itself when either colour does not parse. */
  function MixColor(from: string, to: string, t: real): string {
    var clamped := Clamp(t, 0.0, 1.0);
    var f := HexToRgb(from);
    var g := HexToRgb(to);
    if f.None? || g.None? then to else FormatHex(Mix(f.value, g.value, clamped))
  }

  /** Two printed digits read back as the byte they print. */
  lemma HexByteValue(c: Byte)
    ensures AllHex(HexByte(c)) && HexValue(HexByte(c)) == c
  {
    var s := HexByte(c);
    HexDigitRoundTrip(c / 16);
    HexDigitRoundTrip(c % 16);
    assert s[..1] == [s[0]];
    assert [s[0]][..0] == [];
  }

  /** A formatted colour is '#' followed by six lower-case hex digits. */
  lemma FormatHexShape(c: Rgb)
    ensures var s := FormatHex(c);
      |s| == 7 && s[0] == '#' && forall i :: 1 <= i < 7 ==> IsLowerHexDigit(s[i])
  {
  }

  /** Parsing a formatted colour gives the colour back. */
  lemma FormatHexRoundTrip(c: Rgb)
    ensures HexToRgb(FormatHex(c)) == Some(c)
  {
    var s := FormatHex(c);
    var n := s[1..];
    assert RemoveFirst(s, '#') == n;
    FormatHexShape(c);
    assert n == HexByte(c.r) + HexByte(c.g) + HexByte(c.b);
    assert n[0..2] == HexByte(c.r);
    assert n[2..4] == HexByte(c.g);
    assert n[4..6] == HexByte(c.b);
    HexByteValue(c.r);
    HexByteValue(c.g);
    HexByteValue(c.b);
    HexToRgbDigits(s);
  }

  /** When either colour does not parse, `mixColor` returns `to` unchanged. */
  lemma MixColorInvalid(from: string, to: string, t: real)
    requires HexToRgb(from).None? || HexToRgb(to).None?
    ensures MixColor(from, to, t) == to
  {
  }

  /**
   * With two valid colours the result is a `#rrggbb` text that reads back as the mix at
   * the clamped fraction.
   */
  lemma MixColorParses(from: string, to: string, t: real)
    requires HexToRgb(from).Some? && HexToRgb(to).Some?
    ensures var m := MixColor(from, to, t);
      && |m| == 7 && m[0] == '#' && (forall i :: 1 <= i < 7 ==> IsLowerHexDigit(m[i]))
      && HexToRgb(m) == Some(Mix(HexToRgb(from).value, HexToRgb(to).value, Clamp(t, 0.0, 1.0)))
  {
    var c := Mix(HexToRgb(from).value, HexToRgb(to).value, Clamp(t, 0.0, 1.0));
    FormatHexShape(c);
    FormatHexRoundTrip(c);
  }

  /** At or below 0 the mix is `from`, at or above 1 it is `to`, both as parsed colours. */
  lemma MixColorEndpoints(from: string, to: string, t: real)
    requires HexToRgb(from).Some? && HexToRgb(to).Some?
    ensures t <= 0.0 ==> HexToRgb(MixColor(from, to, t)) == HexToRgb(from)
    ensures t >= 1.0 ==> HexToRgb(MixColor(from, to, t)) == HexToRgb(to)
  {
    MixColorParses(from, to, t);
  }

  /** The fraction is clamped to [0, 1]: any value beyond an end behaves like that end. */
  lemma MixColorClamped(from: string, to: string, t: real)
    ensures t <= 0.0 ==> MixColor(from, to, t) == MixColor(from, to, 0.0)
    ensures t >= 1.0 ==> MixColor(from, to, t) == MixColor(from, to, 1.0)
  {
  }
}
