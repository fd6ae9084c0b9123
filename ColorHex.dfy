/**
  * `Color(hex:)`: the failable initialiser that turns a stored section colour
  * string into integer RGBA channels, and the `#RRGGBB` / `#RRGGBBAA` spelling
  * it is meant to read back.
  */
module ColorHex {
  import opened Common
  import opened Text

  /** Colour channels as the bytes the parser extracts, before the division by 255. */
  datatype Rgba = Rgba(r: nat, g: nat, b: nat, a: nat)

  predicate IsChannels(c: Rgba) {
    c.r < 256 && c.g < 256 && c.b < 256 && c.a < 256
  }

  /** The largest `UInt64`; `scanHexInt64` yields it when the digits overflow. */
  const MaxUInt64: nat := 0xFFFF_FFFF_FFFF_FFFF

  predicate IsHexDigit(c: char) {
    ('0' <= c <= '9') || ('a' <= c <= 'f') || ('A' <= c <= 'F')
  }

  predicate AllHexDigits(s: string) {
    forall i :: 0 <= i < |s| ==> IsHexDigit(s[i])
  }

  function HexValue(c: char): (v: nat)
    requires IsHexDigit(c)
    ensures v < 16
  {
    if '0' <= c <= '9' then c as int - '0' as int
    else if 'a' <= c <= 'f' then c as int - 'a' as int + 10
    else c as int - 'A' as int + 10
  }

  /** Number of hex digits at the start of `s`. */
  function HexRunLength(s: string): (n: nat)
    ensures n <= |s|
    ensures AllHexDigits(s[..n])
    ensures n < |s| ==> !IsHexDigit(s[n])
  {
    if s == [] || !IsHexDigit(s[0]) then 0
    else
      var n := 1 + HexRunLength(s[1..]);
      assert s[..n] == [s[0]] + s[1..][..n - 1];
      n
  }

  function Pow16(n: nat): (p: nat)
    ensures p >= 1
  {
    if n == 0 then 1 else 16 * Pow16(n - 1)
  }

  /** The number a run of hex digits spells, most significant digit first. */
  function HexRunValue(s: string): (v: nat)
    requires AllHexDigits(s)
    ensures v < Pow16(|s|)
  {
    if s == [] then 0 else 16 * HexRunValue(s[..|s| - 1]) + HexValue(s[|s| - 1])
  }

  /**
    * `Scanner(string:).scanHexInt64(_:)`: skips leading whitespace, takes an optional
    * `0x`/`0X` when a hex digit follows it, then reads the longest run of hex digits.
    * `None` when there is no digit; the rest of the string is ignored.
    */
  function ScanHex(s: string): (r: Option<nat>)
    ensures r.Some? ==> r.value <= MaxUInt64
    ensures r.None? <==> HexRunLength(AfterHexPrefix(s[LeadingWhitespace(s)..])) == 0
  {
    var t := AfterHexPrefix(s[LeadingWhitespace(s)..]);
    var n := HexRunLength(t);
    if n == 0 then None
    else
      var v := HexRunValue(t[..n]);
      Some(if v > MaxUInt64 then MaxUInt64 else v)
  }

  /** Drops a `0x` / `0X` that is followed by a hex digit. */
  function AfterHexPrefix(t: string): string {
    if |t| >= 3 && t[0] == '0' && (t[1] == 'x' || t[1] == 'X') && IsHexDigit(t[2]) then t[2..] else t
  }

  /** The string the parser scans and counts: trimmed, then one leading `#` removed. */
  function Sanitize(hex: string): string {
    var t := Trim(hex);
    if |t| > 0 && t[0] == '#' then t[1..] else t
  }

  /** `Color(hex:)`: six characters are RRGGBB with full alpha, eight are RRGGBBAA, anything else fails. */
  function ParseHex(hex: string): (c: Option<Rgba>)
    ensures c.Some? ==> IsChannels(c.value)
    ensures c.Some? ==> ScanHex(Sanitize(hex)).Some?
    ensures c.Some? <==> ScanHex(Sanitize(hex)).Some? && (|Sanitize(hex)| == 6 || |Sanitize(hex)| == 8)
    ensures c.Some? && |Sanitize(hex)| == 6 ==> c.value.a == 255
  {
    var s := Sanitize(hex);
    match ScanHex(s)
    case None => None
    case Some(v) =>
      if |s| == 6 then Some(Rgba((v / 0x10000) % 0x100, (v / 0x100) % 0x100, v % 0x100, 255))
      else if |s| == 8 then Some(Rgba((v / 0x1000000) % 0x100, (v / 0x10000) % 0x100, (v / 0x100) % 0x100, v % 0x100))
      else None
  }

  /** Surrounding whitespace never changes the colour. */
  lemma ParseHexIgnoresSurroundingWhitespace(hex: string)
    ensures ParseHex(Trim(hex)) == ParseHex(hex)
  {
    TrimIdempotent(hex);
  }

  function HexDigitChar(d: nat): (c: char)
    requires d < 16
    ensures IsHexDigit(c) && HexValue(c) == d
    ensures !IsWhitespace(c) && c != 'x' && c != 'X' && c != '#'
  {
    if d < 10 then ('0' as int + d) as char else ('A' as int + d - 10) as char
  }

  /** `%02X` of one channel. */
  function ByteHex(x: nat): (s: string)
    requires x < 256
    ensures |s| == 2 && AllHexDigits(s)
  {
    [HexDigitChar(x / 16), HexDigitChar(x % 16)]
  }

  /** `#%06X`: the colour as the app stores it. */
  function FormatHex6(c: Rgba): string
    requires IsChannels(c)
  {
    "#" + ByteHex(c.r) + ByteHex(c.g) + ByteHex(c.b)
  }

  /** `#%08X`: the colour with its alpha byte. */
  function FormatHex8(c: Rgba): string
    requires IsChannels(c)
  {
    "#" + ByteHex(c.r) + ByteHex(c.g) + ByteHex(c.b) + ByteHex(c.a)
  }

  /** Reading digits `a` then `b` shifts the value of `a` left by `|b|` places. */
  lemma {:induction false} HexRunValueAppend(a: string, b: string)
    requires AllHexDigits(a) && AllHexDigits(b)
    ensures AllHexDigits(a + b)
    ensures HexRunValue(a + b) == HexRunValue(a) * Pow16(|b|) + HexRunValue(b)
  {
    if b == [] {
      assert a + b == a;
    } else {
      var b' := b[..|b| - 1];
      assert (a + b)[..|a + b| - 1] == a + b';
      HexRunValueAppend(a, b');
      Shift(HexRunValue(a), Pow16(|b'|), HexRunValue(b'), HexValue(b[|b| - 1]));
    }
  }

  lemma Shift(x: int, p: int, y: int, h: int)
    ensures 16 * (x * p + y) + h == x * (16 * p) + (16 * y + h)
  {
  }

  lemma ByteHexValue(x: nat)
    requires x < 256
    ensures HexRunValue(ByteHex(x)) == x
  {
    var s := ByteHex(x);
    assert s[..1] == [HexDigitChar(x / 16)];
    assert HexRunValue(s[..1]) == x / 16 by {
      assert s[..1][..0] == [];
    }
  }

  /** Scanning a string of hex digits that cannot be mistaken for a `0x` prefix reads all of it. */
  lemma ScanAllDigits(s: string)
    requires s != [] && AllHexDigits(s) && !IsWhitespace(s[0])
    requires |s| >= 2 ==> s[1] != 'x' && s[1] != 'X'
    ensures ScanHex(s) == Some(if HexRunValue(s) > MaxUInt64 then MaxUInt64 else HexRunValue(s))
  {
    assert LeadingWhitespace(s) == 0;
    assert s[0..] == s;
    assert AfterHexPrefix(s) == s;
    HexRunLengthAll(s);
    assert s[..|s|] == s;
  }

  lemma {:induction false} HexRunLengthAll(s: string)
    requires AllHexDigits(s)
    ensures HexRunLength(s) == |s|
  {
    if s != [] {
      HexRunLengthAll(s[1..]);
    }
  }

  /** Three channels read back as the number `r·65536 + g·256 + b`. */
  lemma Hex6Value(c: Rgba)
    requires IsChannels(c)
    ensures AllHexDigits(FormatHex6(c)[1..])
    ensures HexRunValue(FormatHex6(c)[1..]) == c.r * 0x10000 + c.g * 0x100 + c.b
  {
    var s := ByteHex(c.r) + ByteHex(c.g) + ByteHex(c.b);
    assert FormatHex6(c)[1..] == s;
    ByteHexValue(c.r); ByteHexValue(c.g); ByteHexValue(c.b);
    HexRunValueAppend(ByteHex(c.r), ByteHex(c.g));
    HexRunValueAppend(ByteHex(c.r) + ByteHex(c.g), ByteHex(c.b));
  }

  /** Parsing what `#%06X` prints gives the channels back with full alpha. */
  lemma ParseFormatHex6(c: Rgba)
    requires IsChannels(c)
    ensures ParseHex(FormatHex6(c)) == Some(Rgba(c.r, c.g, c.b, 255))
  {
    var h := FormatHex6(c);
    var s := h[1..];
    Hex6Value(c);
    TrimClean(h);
    assert Sanitize(h) == s;
    ScanAllDigits(s);
    var v := c.r * 0x10000 + c.g * 0x100 + c.b;
    assert ScanHex(s) == Some(v);
    DivMod(v, 0x100, c.r * 0x100 + c.g, c.b);
    DivMod(v, 0x10000, c.r, c.g * 0x100 + c.b);
    DivMod(v / 0x100, 0x100, c.r, c.g);
    DivMod(c.r, 0x100, 0, c.r);
  }

  /** Folding a hex digit to lower case keeps it a digit of the same value. */
  lemma LowerHexDigit(c: char)
    requires IsHexDigit(c)
    ensures IsHexDigit(ToLower(c)) && HexValue(ToLower(c)) == HexValue(c)
    ensures !IsWhitespace(ToLower(c)) && ToLower(c) != 'x' && ToLower(c) != 'X'
  {
  }

  /** Two digit runs whose digits have the same values denote the same number, whatever their case. */
  lemma {:induction false} HexRunValueIgnoresCase(a: string, b: string)
    requires |a| == |b| && AllHexDigits(a) && AllHexDigits(b)
    requires forall i :: 0 <= i < |a| ==> HexValue(a[i]) == HexValue(b[i])
    ensures HexRunValue(a) == HexRunValue(b)
  {
    if a != [] {
      HexRunValueIgnoresCase(a[..|a| - 1], b[..|b| - 1]);
    }
  }

  /** Lower-case digits read as upper-case ones: "#ff00aa" is the colour stored as "#FF00AA". */
  lemma ParseLowerFormatHex6(c: Rgba)
    requires IsChannels(c)
    ensures ParseHex(Lower(FormatHex6(c))) == ParseHex(FormatHex6(c)) == Some(Rgba(c.r, c.g, c.b, 255))
  {
    ParseFormatHex6(c);
    var h := FormatHex6(c);
    var l := Lower(h);
    var s := h[1..];
    Hex6Value(c);
    assert |s| == 6;
    forall i | 0 <= i < 6 ensures IsHexDigit(l[i + 1]) && HexValue(l[i + 1]) == HexValue(s[i]) {
      LowerHexDigit(s[i]);
    }
    var ls := l[1..];
    assert l[0] == '#';
    LowerHexDigit(s[0]);
    LowerHexDigit(s[5]);
    TrimClean(h);
    TrimClean(l);
    assert Sanitize(h) == s && Sanitize(l) == ls;
    HexRunValueIgnoresCase(ls, s);
    LowerHexDigit(s[1]);
    ScanAllDigits(s);
    ScanAllDigits(ls);
  }

  /** Four channels read back as the number `r·2^24 + g·2^16 + b·2^8 + a`. */
  lemma Hex8Value(c: Rgba)
    requires IsChannels(c)
    ensures AllHexDigits(FormatHex8(c)[1..])
    ensures HexRunValue(FormatHex8(c)[1..]) == c.r * 0x1000000 + c.g * 0x10000 + c.b * 0x100 + c.a
  {
    var r, g, b, a := ByteHex(c.r), ByteHex(c.g), ByteHex(c.b), ByteHex(c.a);
    assert FormatHex8(c)[1..] == r + g + b + a;
    ByteHexValue(c.r); ByteHexValue(c.g); ByteHexValue(c.b); ByteHexValue(c.a);
    assert Pow16(2) == 256;
    HexRunValueAppend(r, g);
    var rg := c.r * 256 + c.g;
    assert HexRunValue(r + g) == rg;
    HexRunValueAppend(r + g, b);
    var rgb := rg * 256 + c.b;
    assert HexRunValue(r + g + b) == rgb;
    HexRunValueAppend(r + g + b, a);
    assert HexRunValue(r + g + b + a) == rgb * 256 + c.a;
  }

  /** Parsing what `#%08X` prints gives all four channels back. */
  lemma ParseFormatHex8(c: Rgba)
    requires IsChannels(c)
    ensures ParseHex(FormatHex8(c)) == Some(c)
  {
    var h := FormatHex8(c);
    var s := h[1..];
    Hex8Value(c);
    TrimClean(h);
    assert Sanitize(h) == s;
    ScanAllDigits(s);
    var v := c.r * 0x1000000 + c.g * 0x10000 + c.b * 0x100 + c.a;
    assert ScanHex(s) == Some(v);
    DivMod(v, 0x100, c.r * 0x10000 + c.g * 0x100 + c.b, c.a);
    DivMod(v, 0x10000, c.r * 0x100 + c.g, c.b * 0x100 + c.a);
    DivMod(v, 0x1000000, c.r, c.g * 0x10000 + c.b * 0x100 + c.a);
    DivMod(v / 0x100, 0x100, c.r * 0x100 + c.g, c.b);
    DivMod(v / 0x10000, 0x100, c.r, c.g);
    DivMod(c.r, 0x100, 0, c.r);
  }

  /** Quotient and remainder are determined by any decomposition with a small remainder. */
  lemma DivMod(v: int, d: int, q: int, m: int)
    requires d > 0 && 0 <= m < d && v == q * d + m
    ensures v / d == q && v % d == m
  {
    var q', m' := v / d, v % d;
    assert (q - q') * d == m' - m;
    if q > q' {
      MulAtLeast(q - q', d);
    } else if q < q' {
      MulAtLeast(q' - q, d);
    }
  }

  lemma MulAtLeast(x: int, d: int)
    requires x >= 1 && d > 0
    ensures x * d >= d
  {
  }

  /** A second `#` is not stripped: the scanner finds no digit and the colour is rejected. */
  lemma DoubleHashRejected()
    ensures ParseHex("##12345") == None
  {
    var h := "##12345";
    TrimClean(h);
    assert Sanitize(h) == "#12345";
    assert LeadingWhitespace("#12345") == 0;
    assert HexRunLength("#12345") == 0;
  }

  /** Only the leading digits are read, so a six-character string with a stray letter still parses. */
  lemma TrailingGarbageAccepted()
    ensures ParseHex("12345G") == Some(Rgba(0x01, 0x23, 0x45, 255))
  {
    var h := "12345G";
    TrimClean(h);
    assert Sanitize(h) == h;
    ScanStopsAtLetter();
    DivMod(0x12345, 0x10000, 0x01, 0x2345);
    DivMod(0x12345, 0x100, 0x123, 0x45);
    DivMod(0x123, 0x100, 0x01, 0x23);
    DivMod(0x01, 0x100, 0, 0x01);
  }

  lemma ScanStopsAtLetter()
    ensures ScanHex("12345G") == Some(0x12345)
  {
    var h := "12345G";
    assert LeadingWhitespace(h) == 0;
    assert h[0..] == h;
    assert AfterHexPrefix(h) == h;
    assert h == "12345" + "G";
    HexRunLengthStops("12345", "G");
    assert h[..5] == "12345";
    FiveDigits();
  }

  lemma FiveDigits()
    ensures AllHexDigits("12345") && HexRunValue("12345") == 0x12345
  {
    assert "12345"[..4] == "1234";
    assert "1234"[..3] == "123";
    assert "123"[..2] == "12";
    assert "12"[..1] == "1";
    assert "1"[..0] == "";
  }

  /** The digit run ends at the first character that is not a hex digit. */
  lemma {:induction false} HexRunLengthStops(a: string, rest: string)
    requires AllHexDigits(a) && rest != [] && !IsHexDigit(rest[0])
    ensures HexRunLength(a + rest) == |a|
  {
    if a != [] {
      assert (a + rest)[1..] == a[1..] + rest;
      HexRunLengthStops(a[1..], rest);
    } else {
      assert a + rest == rest;
    }
  }

  /** Seven characters are rejected even when every one is a hex digit. */
  lemma SevenDigitsRejected()
    ensures ParseHex("#1234567") == None
  {
    TrimClean("#1234567");
    assert Sanitize("#1234567") == "1234567";
  }
}
