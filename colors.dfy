/**
 * `SKColor` values, the `SKColor.Parse` hex syntax the palette editor accepts,
 * and the `#RRGGBB` rendering the configuration stores.
 */
module Colors {
  import opened Wrappers
  import opened Text

  type Byte = x: int | 0 <= x < 256

  datatype Color = Color(red: Byte, green: Byte, blue: Byte, alpha: Byte)

  /** `new SKColor(r, g, b)`: an opaque colour. */
  function Rgb(r: Byte, g: Byte, b: Byte): Color
  {
    Color(r, g, b, 255)
  }

  /** `color.WithAlpha(255)`. */
  function Opaque(c: Color): Color
  {
    c.(alpha := 255)
  }

  const White: Color := Rgb(255, 255, 255)

  /** One hexadecimal digit, either case (the parser upper-cases its input). */
  function HexValue(c: char): (r: Option<int>)
    ensures r.Some? ==> 0 <= r.value < 16
    ensures r.Some? <==> IsDigit(c) || 'A' <= c <= 'F' || 'a' <= c <= 'f'
  {
    if IsDigit(c) then Some(DigitValue(c))
    else if 'A' <= c <= 'F' then Some(c as int - 'A' as int + 10)
    else if 'a' <= c <= 'f' then Some(c as int - 'a' as int + 10)
    else None
  }

  predicate AllHex(s: string)
  {
    forall i :: 0 <= i < |s| ==> HexValue(s[i]).Some?
  }

  function Nibble(s: string, i: int): (d: int)
    requires AllHex(s) && 0 <= i < |s|
    ensures 0 <= d < 16
  {
    HexValue(s[i]).value
  }

  /** Two digits `s[i]`, `s[i + 1]` read as one byte. */
  function HexByte(s: string, i: int): Byte
    requires AllHex(s) && 0 <= i && i + 1 < |s|
  {
    16 * Nibble(s, i) + Nibble(s, i + 1)
  }

  /** One digit `d` standing for the byte `0xdd`, as in the short forms. */
  function ShortByte(s: string, i: int): Byte
    requires AllHex(s) && 0 <= i < |s|
  {
    17 * Nibble(s, i)
  }

  /** The text the parser reads digits from: trimmed, one leading `#` dropped. */
  function HexBody(s: string): string
  {
    var t := Trim(s);
    if |t| > 0 && t[0] == '#' then t[1..] else t
  }

  /**
   * `SKColor.Parse` (through `TryParse`): trim, drop one leading `#`, then
   * `RGB`, `ARGB`, `RRGGBB` or `AARRGGBB` hex digits; the forms without alpha
   * are opaque. `None` is the `ArgumentException` the callers catch.
   */
  function ParseColor(s: string): (r: Option<Color>)
    ensures r.Some? <==> AllHex(HexBody(s)) && |HexBody(s)| in {3, 4, 6, 8}
    ensures r.Some? && |HexBody(s)| in {3, 6} ==> r.value.alpha == 255
  {
    var h := HexBody(s);
    if !AllHex(h) then None
    else if |h| == 3 then Some(Rgb(ShortByte(h, 0), ShortByte(h, 1), ShortByte(h, 2)))
    else if |h| == 4 then Some(Color(ShortByte(h, 1), ShortByte(h, 2), ShortByte(h, 3), ShortByte(h, 0)))
    else if |h| == 6 then Some(Rgb(HexByte(h, 0), HexByte(h, 2), HexByte(h, 4)))
    else if |h| == 8 then Some(Color(HexByte(h, 2), HexByte(h, 4), HexByte(h, 6), HexByte(h, 0)))
    else None
  }

  /** An upper-case hexadecimal digit (`X` format). */
  function HexChar(d: int): (c: char)
    requires 0 <= d < 16
    ensures HexValue(c) == Some(d)
    ensures IsDigit(c) || 'A' <= c <= 'F'
  {
    if d < 10 then DigitChar(d) else ('A' as int + d - 10) as char
  }

  /** `b.ToString("X2")`. */
  function HexPair(b: Byte): (s: string)
    ensures |s| == 2 && AllHex(s) && 16 * Nibble(s, 0) + Nibble(s, 1) == b
  {
    [HexChar(b / 16), HexChar(b % 16)]
  }

  /** `$"#{c.Red:X2}{c.Green:X2}{c.Blue:X2}"`: the stored form of a palette colour. */
  function ToHex(c: Color): (s: string)
    ensures |s| == 7 && s[0] == '#' && AllHex(s[1..])
  {
    "#" + HexPair(c.red) + HexPair(c.green) + HexPair(c.blue)
  }

  /** Parsing a stored colour gives back its channels; the alpha is not stored and comes back opaque. */
  lemma ParseToHex(c: Color)
    ensures ParseColor(ToHex(c)) == Some(Opaque(c))
  {
    var h := HexPair(c.red) + HexPair(c.green) + HexPair(c.blue);
    HexBodyOfToHex(c);
    PairsRead(HexPair(c.red), HexPair(c.green), HexPair(c.blue));
    ParseSixDigits(ToHex(c), h);
    PairValue(c.red);
    PairValue(c.green);
    PairValue(c.blue);
  }

  lemma PairValue(b: Byte)
    ensures HexByte(HexPair(b), 0) == b
  {
  }

  lemma ParseSixDigits(s: string, h: string)
    requires HexBody(s) == h && AllHex(h) && |h| == 6
    ensures ParseColor(s) == Some(Rgb(HexByte(h, 0), HexByte(h, 2), HexByte(h, 4)))
  {
  }

  lemma HexBodyOfToHex(c: Color)
    ensures HexBody(ToHex(c)) == HexPair(c.red) + HexPair(c.green) + HexPair(c.blue)
  {
    var s := ToHex(c);
    var h := HexPair(c.red) + HexPair(c.green) + HexPair(c.blue);
    assert s == "#" + h;
    assert forall i :: 1 <= i < |s| ==> s[i] == h[i - 1];
    assert forall i :: 0 <= i < |h| ==> HexValue(h[i]).Some?;
    assert forall i :: 0 <= i < |s| ==> !IsWhiteSpace(s[i]);
    TrimNoWhiteSpace(s);
  }

  lemma PairsRead(a: string, b: string, c: string)
    requires |a| == 2 && |b| == 2 && |c| == 2 && AllHex(a) && AllHex(b) && AllHex(c)
    ensures var h := a + b + c;
      AllHex(h) && HexByte(h, 0) == HexByte(a, 0) && HexByte(h, 2) == HexByte(b, 0) && HexByte(h, 4) == HexByte(c, 0)
  {
    var h := a + b + c;
    assert h[0] == a[0] && h[1] == a[1] && h[2] == b[0] && h[3] == b[1] && h[4] == c[0] && h[5] == c[1];
  }

  /** Whatever string parses, storing and re-parsing it gives the same opaque colour. */
  lemma ToHexOfParsed(s: string)
    requires ParseColor(s).Some?
    ensures ParseColor(ToHex(ParseColor(s).value)) == Some(Opaque(ParseColor(s).value))
  {
    ParseToHex(ParseColor(s).value);
  }
}
