/** interpolateColor of src/utils/index.ts: parseInt of the hex digits,
    the 32-bit shifts and masks that split a colour into channels, the
    rounding of the blend, and the shifts, bitwise or, toString(16) and
    padStart that put it back together. JavaScript's 32-bit operators are
    written out on unbounded integers. */
module ColorInterpolation {
  import opened Numbers

  const Two31: int := 0x8000_0000
  const Two32: int := 0x1_0000_0000

  function Pow2(k: nat): (p: nat)
    ensures p >= 1
  {
    if k == 0 then 1 else 2 * Pow2(k - 1)
  }

  function Pow16(k: nat): (p: nat)
    ensures p >= 1
  {
    if k == 0 then 1 else 16 * Pow16(k - 1)
  }

  // ---------------------------------------------------------------------
  // Hex digits.

  predicate IsHexDigit(c: char)
  {
    '0' <= c <= '9' || 'a' <= c <= 'f' || 'A' <= c <= 'F'
  }

  predicate IsLowerHexDigit(c: char)
  {
    '0' <= c <= '9' || 'a' <= c <= 'f'
  }

  predicate AllHex(s: string)
  {
    forall i :: 0 <= i < |s| ==> IsHexDigit(s[i])
  }

  predicate AllLowerHex(s: string)
  {
    forall i :: 0 <= i < |s| ==> IsLowerHexDigit(s[i])
  }

  function DigitValue(c: char): (d: nat)
    requires IsHexDigit(c)
    ensures d < 16
  {
    if '0' <= c <= '9' then c as int - '0' as int
    else if 'a' <= c <= 'f' then c as int - 'a' as int + 10
    else c as int - 'A' as int + 10
  }

  /** The lowercase digit toString(16) writes for a value below 16. */
  function DigitChar(d: nat): (c: char)
    requires d < 16
    ensures IsLowerHexDigit(c) && DigitValue(c) == d
  {
    if d < 10 then ('0' as int + d) as char else ('a' as int + d - 10) as char
  }

  lemma DigitCharOfValue(c: char)
    requires IsLowerHexDigit(c)
    ensures DigitChar(DigitValue(c)) == c
  {
  }

  /** The value of a string of hex digits. */
  function HexValue(s: string): (v: nat)
    requires AllHex(s)
    ensures v < Pow16(|s|)
  {
    if s == [] then 0 else HexValue(s[..|s| - 1]) * 16 + DigitValue(s[|s| - 1])
  }

  /** How many hex digits s starts with. */
  function HexPrefixLength(s: string): (k: nat)
    ensures k <= |s| && AllHex(s[..k])
    ensures k < |s| ==> !IsHexDigit(s[k])
  {
    if s == [] || !IsHexDigit(s[0]) then 0
    else
      var k := HexPrefixLength(s[1..]);
      assert s[..k + 1] == [s[0]] + s[1..][..k];
      k + 1
  }

  /** A number or NaN, as parseInt returns. */
  datatype Parsed = NaN | Number(value: nat)

  /** parseInt(s, 16): the value of the longest prefix of hex digits, NaN
      when there is none. */
  function ParseHex(s: string): (p: Parsed)
    ensures AllHex(s) && s != [] ==> p == Number(HexValue(s))
  {
    var k := HexPrefixLength(s);
    assert AllHex(s) ==> k == |s| && s[..k] == s;
    if k == 0 then NaN else Number(HexValue(s[..k]))
  }

  // ---------------------------------------------------------------------
  // JavaScript's 32-bit integer operators.

  /** ToInt32: wrap into [-2^31, 2^31). */
  function ToInt32(x: int): (y: int)
    ensures -Two31 <= y < Two31
    ensures -Two31 <= x < Two31 ==> y == x
  {
    var u := x % Two32;
    if u >= Two31 then u - Two32 else u
  }

  function ParsedToInt32(p: Parsed): int
  {
    match p
    case NaN => 0
    case Number(v) => ToInt32(v)
  }

  /** x >> k: an arithmetic shift of ToInt32(x), i.e. a floor division. */
  function ShiftRight(x: int, k: nat): int
  {
    ToInt32(x) / Pow2(k)
  }

  /** x & 0xFF: the low eight bits of ToInt32(x). */
  function Low8(x: int): (y: int)
    ensures 0 <= y < 256
  {
    ToInt32(x) % 256
  }

  /** x << k: ToInt32(x) shifted, wrapped back into 32 bits. */
  function ShiftLeft(x: int, k: nat): int
  {
    ToInt32(ToInt32(x) * Pow2(k))
  }

  /** Bitwise or of two non-negative integers. */
  function BitOr(a: nat, b: nat): nat
  {
    if a == 0 && b == 0 then 0
    else BitOr(a / 2, b / 2) * 2 + (if a % 2 == 1 || b % 2 == 1 then 1 else 0)
  }

  /** x | y: bitwise or of the unsigned 32-bit forms, read back signed. */
  function Or32(x: int, y: int): int
  {
    ToInt32(BitOr(x % Two32, y % Two32))
  }

  lemma {:induction false} BitOrZero(a: nat)
    ensures BitOr(a, 0) == a
  {
    if a != 0 {
      BitOrZero(a / 2);
    }
  }

  /** Or-ing a number shifted left by k with one below 2^k adds them. */
  lemma {:induction false} BitOrDisjoint(a: nat, b: nat, k: nat)
    requires b < Pow2(k)
    ensures BitOr(a * Pow2(k), b) == a * Pow2(k) + b
  {
    if k == 0 {
      BitOrZero(a);
    } else {
      var x := a * Pow2(k);
      assert x == (a * Pow2(k - 1)) * 2;
      assert x / 2 == a * Pow2(k - 1) && x % 2 == 0;
      BitOrDisjoint(a, b / 2, k - 1);
      if x != 0 || b != 0 {
        assert BitOr(x, b) == BitOr(x / 2, b / 2) * 2 + b % 2;
      }
    }
  }

  // ---------------------------------------------------------------------
  // toString(16) and padStart.

  /** toString(16) of a non-negative integer: lowercase, no leading
      zeros. */
  function ToHex(n: nat): (s: string)
    ensures |s| >= 1 && AllLowerHex(s)
  {
    if n < 16 then [DigitChar(n)] else ToHex(n / 16) + [DigitChar(n % 16)]
  }

  /** toString(16) of an integer: a minus sign before a negative one. */
  function IntToHex(x: int): string
  {
    if x < 0 then "-" + ToHex(-x) else ToHex(x)
  }

  /** s.padStart(width, '0'). */
  function PadStart(s: string, width: nat): (t: string)
    ensures |t| == if |s| >= width then |s| else width
  {
    if |s| >= width then s else seq(width - |s|, _ => '0') + s
  }

  /** The width-digit lowercase hex form of n, leading zeros kept. */
  function FixedHex(n: nat, width: nat): (s: string)
    ensures |s| == width && AllLowerHex(s)
  {
    if width == 0 then [] else FixedHex(n / 16, width - 1) + [DigitChar(n % 16)]
  }

  lemma {:induction false} ToHexShort(n: nat, width: nat)
    requires n < Pow16(width)
    ensures |ToHex(n)| <= width || (n == 0 && width == 0)
  {
    if n >= 16 {
      ToHexShort(n / 16, width - 1);
    }
  }

  lemma {:induction false} FixedHexZero(width: nat)
    ensures FixedHex(0, width) == seq(width, _ => '0')
  {
    if width > 0 {
      FixedHexZero(width - 1);
    }
  }

  /** Padding the shortest hex form to the width gives the fixed-width
      form. */
  lemma {:induction false} PadStartIsFixedHex(n: nat, width: nat)
    requires width >= 1 && n < Pow16(width)
    ensures PadStart(ToHex(n), width) == FixedHex(n, width)
  {
    if n < 16 {
      FixedHexZero(width - 1);
      assert n / 16 == 0 && n % 16 == n;
    } else {
      ToHexShort(n / 16, width - 1);
      PadStartIsFixedHex(n / 16, width - 1);
      var t := ToHex(n / 16);
      assert PadStart(t + [DigitChar(n % 16)], width) == PadStart(t, width - 1) + [DigitChar(n % 16)];
    }
  }

  lemma DivMod16(q: nat, d: nat)
    requires d < 16
    ensures (q * 16 + d) / 16 == q && (q * 16 + d) % 16 == d
  {
  }

  /** Reading a lowercase hex string and writing it back at its own width
      gives the string back. */
  lemma {:induction false} FixedHexOfValue(s: string)
    requires AllLowerHex(s)
    ensures FixedHex(HexValue(s), |s|) == s
  {
    if s != [] {
      var init, last := s[..|s| - 1], s[|s| - 1];
      assert AllLowerHex(init);
      FixedHexOfValue(init);
      DigitCharOfValue(last);
      var v := HexValue(s);
      assert v == HexValue(init) * 16 + DigitValue(last);
      DivMod16(HexValue(init), DigitValue(last));
      assert FixedHex(v, |s|) == FixedHex(v / 16, |s| - 1) + [DigitChar(v % 16)];
      assert s == init + [last];
    }
  }

  // ---------------------------------------------------------------------
  // interpolateColor

  /** A '#RRGGBB' colour. */
  predicate ValidColor(c: string)
  {
    |c| == 7 && c[0] == '#' && AllHex(c[1..])
  }

  /** hex(color): parseInt(color.slice(1), 16), through ToInt32 as every
      operator that reads it applies it. */
  function Hex(color: string): int
  {
    ParsedToInt32(ParseHex(if color == [] then [] else color[1..]))
  }

  /** The three channels split off a colour: hex >> 16,
      (hex >> 8) & 0x00FF and hex & 0x0000FF. */
  function Channels(color: string): (int, int, int)
  {
    (ShiftRight(Hex(color), 16), Low8(ShiftRight(Hex(color), 8)), Low8(Hex(color)))
  }

  /** Math.round(c1 + factor * (c2 - c1)). */
  function Blend(c1: int, c2: int, factor: real): int
  {
    Round(c1 as real + factor * (c2 - c1) as real)
  }

  /** (r << 16) | (g << 8) | b. */
  function Pack(r: int, g: int, b: int): int
  {
    Or32(Or32(ShiftLeft(r, 16), ShiftLeft(g, 8)), b)
  }

  /** '#' + packed.toString(16).padStart(6, '0'). */
  function Format(packed: int): string
  {
    "#" + PadStart(IntToHex(packed), 6)
  }

  /** The three blended channels. */
  function BlendChannels(color1: string, color2: string, factor: real): (int, int, int)
  {
    var (r1, g1, b1) := Channels(color1);
    var (r2, g2, b2) := Channels(color2);
    (Blend(r1, r2, factor), Blend(g1, g2, factor), Blend(b1, b2, factor))
  }

  /** interpolateColor. */
  function InterpolateColor(color1: string, color2: string, factor: real): (s: string)
    ensures |s| >= 7 && s[0] == '#'
  {
    var (r, g, b) := BlendChannels(color1, color2, factor);
    Format(Pack(r, g, b))
  }

  /** A valid colour's channels are its three hex digit pairs, each in
      [0, 255]. */
  lemma ChannelsOfValid(c: string)
    requires ValidColor(c)
    ensures var v := HexValue(c[1..]);
            v < 0x100_0000
            && Channels(c) == (v / 0x1_0000, (v / 0x100) % 0x100, v % 0x100)
            && 0 <= Channels(c).0 < 256
            && v == Channels(c).0 * 0x1_0000 + Channels(c).1 * 0x100 + Channels(c).2
  {
    var v := HexValue(c[1..]);
    PowersUsed();
    assert Hex(c) == v;
  }

  /** c1 + f * (c2 - c1) lies between c1 and c2 for f in [0, 1], and is
      c1 at f = 0 and c2 at f = 1. */
  lemma BlendPoint(c1: int, c2: int, f: real)
    requires 0.0 <= f <= 1.0
    ensures c1 <= c2 ==> c1 as real <= c1 as real + f * (c2 - c1) as real <= c2 as real
    ensures c2 < c1 ==> c2 as real <= c1 as real + f * (c2 - c1) as real <= c1 as real
    ensures f == 0.0 ==> c1 as real + f * (c2 - c1) as real == c1 as real
    ensures f == 1.0 ==> c1 as real + f * (c2 - c1) as real == c2 as real
  {
    if c1 <= c2 {
      ScaleBetween(f, (c2 - c1) as real);
    } else {
      ScaleBetween(f, (c1 - c2) as real);
      assert f * (c2 - c1) as real == -(f * (c1 - c2) as real);
    }
  }

  /** The blend of two channels lies between them when the factor is in
      [0, 1]; factor 0 gives the first and factor 1 the second. */
  lemma BlendBetween(c1: int, c2: int, factor: real)
    requires 0.0 <= factor <= 1.0
    ensures MinInt(c1, c2) <= Blend(c1, c2, factor) <= MaxInt(c1, c2)
    ensures factor == 0.0 ==> Blend(c1, c2, factor) == c1
    ensures factor == 1.0 ==> Blend(c1, c2, factor) == c2
  {
    BlendPoint(c1, c2, factor);
    if c1 <= c2 {
      RoundWithin(c1 as real + factor * (c2 - c1) as real, c1, c2);
    } else {
      RoundWithin(c1 as real + factor * (c2 - c1) as real, c2, c1);
    }
    RoundOfInteger(c1);
    RoundOfInteger(c2);
  }

  lemma PowersUsed()
    ensures Pow2(8) == 0x100 && Pow2(16) == 0x1_0000 && Pow16(6) == 0x100_0000
  {
    assert Pow2(4) == 16;
    assert Pow2(8) == 0x100;
    assert Pow2(12) == 0x1000;
    assert Pow16(3) == 0x1000;
  }

  /** A shift that stays below 2^31 is a multiplication. */
  lemma ShiftLeftSmall(x: int, k: nat)
    requires 0 <= x && x * Pow2(k) < Two31
    ensures ShiftLeft(x, k) == x * Pow2(k)
  {
    assert x <= x * Pow2(k);
  }

  /** An or of two numbers below 2^31 whose result stays below 2^31 is the
      plain bitwise or. */
  lemma Or32Small(x: int, y: int)
    requires 0 <= x < Two31 && 0 <= y < Two31 && BitOr(x, y) < Two31
    ensures Or32(x, y) == BitOr(x, y)
  {
    SmallModulus(x);
    SmallModulus(y);
    assert Or32(x, y) == ToInt32(BitOr(x, y));
  }

  lemma SmallModulus(x: int)
    requires 0 <= x < Two32
    ensures x % Two32 == x
  {
  }

  /** The red and green channels pack into r * 2^16 + g * 2^8. */
  lemma PackRedGreen(r: int, g: int)
    requires 0 <= r < 256 && 0 <= g < 256
    ensures Or32(ShiftLeft(r, 16), ShiftLeft(g, 8)) == r * 0x1_0000 + g * 0x100
  {
    PowersUsed();
    assert r * 0x1_0000 <= 255 * 0x1_0000 && g * 0x100 <= 255 * 0x100;
    ShiftLeftSmall(r, 16);
    ShiftLeftSmall(g, 8);
    BitOrDisjoint(r, g * 0x100, 16);
    Or32Small(r * 0x1_0000, g * 0x100);
  }

  /** Channels in [0, 255] pack by shifts and ors into r * 2^16 + g * 2^8 + b. */
  lemma PackChannels(r: int, g: int, b: int)
    requires 0 <= r < 256 && 0 <= g < 256 && 0 <= b < 256
    ensures Pack(r, g, b) == r * 0x1_0000 + g * 0x100 + b
  {
    PackRedGreen(r, g);
    var hi := r * 0x100 + g;
    assert 0 <= hi < 0x1_0000;
    var rg := hi * 0x100;
    assert rg == r * 0x1_0000 + g * 0x100;
    PowersUsed();
    BitOrDisjoint(hi, b, 8);
    assert BitOr(rg, b) == rg + b;
    assert 0 <= rg + b < 0x100_0000;
    Or32Small(rg, b);
  }

  /** The value r * 2^16 + g * 2^8 + b of three channels. */
  function Packed(t: (int, int, int)): int
  {
    t.0 * 0x1_0000 + t.1 * 0x100 + t.2
  }

  /** A packed value below 2^24 formats as '#' and its six-digit hex form. */
  lemma FormatSmall(packed: int)
    requires 0 <= packed < 0x100_0000
    ensures Format(packed) == "#" + FixedHex(packed, 6)
  {
    PowersUsed();
    PadStartIsFixedHex(packed, 6);
  }

  /** Between a and b, whichever is larger. */
  predicate Between(x: int, a: int, b: int)
  {
    MinInt(a, b) <= x <= MaxInt(a, b)
  }

  /** For two valid colours and a factor in [0, 1] each blended channel
      lies between the two inputs' channels, and the result is '#'
      followed by the six-digit lowercase hex form of the packed channels. */
  lemma InterpolateValid(color1: string, color2: string, factor: real)
    requires ValidColor(color1) && ValidColor(color2) && 0.0 <= factor <= 1.0
    ensures Between(BlendChannels(color1, color2, factor).0, Channels(color1).0, Channels(color2).0)
    ensures Between(BlendChannels(color1, color2, factor).1, Channels(color1).1, Channels(color2).1)
    ensures Between(BlendChannels(color1, color2, factor).2, Channels(color1).2, Channels(color2).2)
    ensures 0 <= Packed(BlendChannels(color1, color2, factor)) < 0x100_0000
    ensures InterpolateColor(color1, color2, factor)
              == "#" + FixedHex(Packed(BlendChannels(color1, color2, factor)), 6)
    ensures |InterpolateColor(color1, color2, factor)| == 7
    ensures InterpolateColor(color1, color2, factor)[0] == '#'
    ensures AllLowerHex(InterpolateColor(color1, color2, factor)[1..])
  {
    BlendedInRange(color1, color2, factor);
    var t := BlendChannels(color1, color2, factor);
    FormatChannels(t);
    assert InterpolateColor(color1, color2, factor) == Format(Pack(t.0, t.1, t.2));
  }

  /** Each blended channel lies between the inputs' channels, so in
      [0, 255]. */
  lemma BlendedInRange(color1: string, color2: string, factor: real)
    requires ValidColor(color1) && ValidColor(color2) && 0.0 <= factor <= 1.0
    ensures Between(BlendChannels(color1, color2, factor).0, Channels(color1).0, Channels(color2).0)
    ensures Between(BlendChannels(color1, color2, factor).1, Channels(color1).1, Channels(color2).1)
    ensures Between(BlendChannels(color1, color2, factor).2, Channels(color1).2, Channels(color2).2)
    ensures var t := BlendChannels(color1, color2, factor);
            0 <= t.0 < 256 && 0 <= t.1 < 256 && 0 <= t.2 < 256
  {
    ChannelsOfValid(color1);
    ChannelsOfValid(color2);
    var (r1, g1, b1) := Channels(color1);
    var (r2, g2, b2) := Channels(color2);
    BlendBetween(r1, r2, factor);
    BlendBetween(g1, g2, factor);
    BlendBetween(b1, b2, factor);
  }

  /** Three channels in [0, 255] pack below 2^24 and format as '#' and the
      six-digit hex form of their packed value. */
  lemma FormatChannels(t: (int, int, int))
    requires 0 <= t.0 < 256 && 0 <= t.1 < 256 && 0 <= t.2 < 256
    ensures 0 <= Packed(t) < 0x100_0000
    ensures Format(Pack(t.0, t.1, t.2)) == "#" + FixedHex(Packed(t), 6)
  {
    PackChannels(t.0, t.1, t.2);
    assert t.0 * 0x1_0000 <= 255 * 0x1_0000 && t.1 * 0x100 <= 255 * 0x100;
    FormatSmall(Packed(t));
  }

  /** Factor 0 reproduces the first colour and factor 1 the second, when
      they are written in lowercase. */
  lemma InterpolateEnds(color1: string, color2: string)
    requires ValidColor(color1) && ValidColor(color2)
    requires AllLowerHex(color1[1..]) && AllLowerHex(color2[1..])
    ensures InterpolateColor(color1, color2, 0.0) == color1
    ensures InterpolateColor(color1, color2, 1.0) == color2
  {
    EndReproduces(color1, color2, 0.0, color1);
    EndReproduces(color1, color2, 1.0, color2);
  }

  lemma EndReproduces(color1: string, color2: string, factor: real, target: string)
    requires ValidColor(color1) && ValidColor(color2)
    requires (factor == 0.0 && target == color1) || (factor == 1.0 && target == color2)
    requires AllLowerHex(target[1..])
    ensures InterpolateColor(color1, color2, factor) == target
  {
    BlendAtEnd(color1, color2, factor, target);
    InterpolateValid(color1, color2, factor);
    RepackedColor(target);
  }

  /** At factor 0 or 1 the blended channels are those of that end. */
  lemma BlendAtEnd(color1: string, color2: string, factor: real, target: string)
    requires ValidColor(color1) && ValidColor(color2)
    requires (factor == 0.0 && target == color1) || (factor == 1.0 && target == color2)
    ensures BlendChannels(color1, color2, factor) == Channels(target)
  {
    var (r1, g1, b1) := Channels(color1);
    var (r2, g2, b2) := Channels(color2);
    BlendBetween(r1, r2, factor);
    BlendBetween(g1, g2, factor);
    BlendBetween(b1, b2, factor);
  }

  /** A lowercase colour's channels, packed and formatted, give the colour
      back. */
  lemma RepackedColor(c: string)
    requires ValidColor(c) && AllLowerHex(c[1..])
    ensures Packed(Channels(c)) == HexValue(c[1..])
    ensures "#" + FixedHex(HexValue(c[1..]), 6) == c
  {
    ChannelsOfValid(c);
    FixedHexOfValue(c[1..]);
    assert c == "#" + c[1..];
  }
}
