/** The text form of a colour: `parse_color` reads an optional `#` and six
    hexadecimal digits, `color_to_string` writes six upper-case ones. */
module ColorCodec {
  import opened Colors

  datatype Option<T> = None | Some(value: T)

  // ---------------------------------------------------------------------------
  // Hexadecimal digits

  /** One character of the class `[0-9a-fA-F]`. */
  predicate IsHexDigit(ch: char) {
    '0' <= ch <= '9' || 'a' <= ch <= 'f' || 'A' <= ch <= 'F'
  }

  /** One character of the class `[0-9A-F]`, what `%02X` writes. */
  predicate IsUpperHexDigit(ch: char) {
    '0' <= ch <= '9' || 'A' <= ch <= 'F'
  }

  predicate AllHex(s: string) {
    forall i :: 0 <= i < |s| ==> IsHexDigit(s[i])
  }

  /** The value of one hexadecimal digit, either case. */
  function HexValue(ch: char): (v: nat)
    requires IsHexDigit(ch)
    ensures v < 16
    ensures '0' <= ch <= '9' ==> v == ch as int - '0' as int
    ensures 'a' <= ch <= 'f' ==> v == ch as int - 'a' as int + 10
    ensures 'A' <= ch <= 'F' ==> v == ch as int - 'A' as int + 10
  {
    if '0' <= ch <= '9' then ch as int - '0' as int
    else if 'a' <= ch <= 'f' then ch as int - 'a' as int + 10
    else ch as int - 'A' as int + 10
  }

  /** The upper-case digit that stands for `v`: the inverse of HexValue. */
  function UpperHexDigit(v: nat): (ch: char)
    requires v < 16
    ensures IsUpperHexDigit(ch) && IsHexDigit(ch)
    ensures HexValue(ch) == v
  {
    if v < 10 then ('0' as int + v) as char else ('A' as int + v - 10) as char
  }

  /** ASCII upper-casing of one character. */
  function ToUpper(ch: char): char {
    if 'a' <= ch <= 'z' then (ch as int - 'a' as int + 'A' as int) as char else ch
  }

  function UpperCase(s: string): string
  {
    seq(|s|, i requires 0 <= i < |s| => ToUpper(s[i]))
  }

  /** Writing a digit back after reading it gives the digit in upper case. */
  lemma UpperHexDigitOfHexValue(ch: char)
    requires IsHexDigit(ch)
    ensures UpperHexDigit(HexValue(ch)) == ToUpper(ch)
  {
  }

  /** The byte that two hexadecimal digits denote, high digit first
      (what `strtoul(hex, nullptr, 16)` yields for a two-digit string). */
  function HexPairValue(hi: char, lo: char): (v: Byte)
    requires IsHexDigit(hi) && IsHexDigit(lo)
    ensures v / 16 == HexValue(hi) && v % 16 == HexValue(lo)
  {
    16 * HexValue(hi) + HexValue(lo)
  }

  /** A byte as two upper-case, zero-padded hexadecimal digits (`%02X`). */
  function ByteToHex(v: Byte): (s: string)
    ensures |s| == 2 && IsUpperHexDigit(s[0]) && IsUpperHexDigit(s[1])
    ensures IsHexDigit(s[0]) && IsHexDigit(s[1]) && HexPairValue(s[0], s[1]) == v
  {
    [UpperHexDigit(v / 16), UpperHexDigit(v % 16)]
  }

  /** Formatting the byte that two digits denote writes those digits, upper-cased. */
  lemma ByteToHexOfPair(hi: char, lo: char)
    requires IsHexDigit(hi) && IsHexDigit(lo)
    ensures ByteToHex(HexPairValue(hi, lo)) == [ToUpper(hi), ToUpper(lo)]
  {
    var h, l := HexValue(hi), HexValue(lo);
    assert (16 * h + l) / 16 == h && (16 * h + l) % 16 == l;
    UpperHexDigitOfHexValue(hi);
    UpperHexDigitOfHexValue(lo);
  }

  // ---------------------------------------------------------------------------
  // The accepted pattern `#?([0-9a-fA-F]{2})([0-9a-fA-F]{2})([0-9a-fA-F]{2})`,
  // matched against the whole string

  /** The whole string is six hex digits, or a `#` and six hex digits. */
  predicate MatchesColorPattern(s: string) {
    || (|s| == 6 && AllHex(s))
    || (|s| == 7 && s[0] == '#' && AllHex(s[1..]))
  }

  /** The string with one leading `#` removed, if it has one. */
  function StripHash(s: string): string
  {
    if |s| > 0 && s[0] == '#' then s[1..] else s
  }

  /** `parse_color`: the colour a string names, or None when the string is not
      exactly an optional `#` followed by six hexadecimal digits. */
  function ParseColor(s: string): (r: Option<Color>)
    ensures r.Some? <==> MatchesColorPattern(s)
    ensures r.Some? ==>
      var d := StripHash(s);
      && |d| == 6 && AllHex(d)
      && r.value.r == HexPairValue(d[0], d[1])
      && r.value.g == HexPairValue(d[2], d[3])
      && r.value.b == HexPairValue(d[4], d[5])
  {
    var d := StripHash(s);
    if |d| == 6 && AllHex(d) then
      Some(Color(HexPairValue(d[0], d[1]), HexPairValue(d[2], d[3]), HexPairValue(d[4], d[5])))
    else
      None
  }

  /** `color_to_string`: six upper-case hexadecimal digits, two per channel in
      R, G, B order, with no leading `#`. */
  function ColorToString(c: Color): (s: string)
    ensures |s| == 6
    ensures forall i :: 0 <= i < |s| ==> IsUpperHexDigit(s[i]) && IsHexDigit(s[i])
    ensures HexPairValue(s[0], s[1]) == c.r
    ensures HexPairValue(s[2], s[3]) == c.g
    ensures HexPairValue(s[4], s[5]) == c.b
  {
    ByteToHex(c.r) + ByteToHex(c.g) + ByteToHex(c.b)
  }

  // ---------------------------------------------------------------------------
  // Round trips

  /** Every colour survives formatting and parsing. */
  lemma ParseFormatRoundTrip(c: Color)
    ensures ParseColor(ColorToString(c)) == Some(c)
  {
    var s := ColorToString(c);
    assert s[0] != '#';
    assert AllHex(s);
  }

  /** Every accepted string comes back from parsing and formatting as its
      digits, without the `#`, in upper case. */
  lemma FormatParseRoundTrip(s: string)
    requires MatchesColorPattern(s)
    ensures ParseColor(s).Some?
    ensures ColorToString(ParseColor(s).value) == UpperCase(StripHash(s))
  {
    var d := StripHash(s);
    assert |d| == 6 && AllHex(d);
    assert IsHexDigit(d[0]) && IsHexDigit(d[1]) && IsHexDigit(d[2]);
    assert IsHexDigit(d[3]) && IsHexDigit(d[4]) && IsHexDigit(d[5]);
    ByteToHexOfPair(d[0], d[1]);
    ByteToHexOfPair(d[2], d[3]);
    ByteToHexOfPair(d[4], d[5]);
  }

  /** Two colours with the same text are the same colour. */
  lemma ColorToStringInjective(c1: Color, c2: Color)
    requires ColorToString(c1) == ColorToString(c2)
    ensures c1 == c2
  {
    ParseFormatRoundTrip(c1);
    ParseFormatRoundTrip(c2);
  }

  /** Worked inputs: mixed case and an optional `#` are read alike, five
      digits and non-hex letters are refused, formatting pads with zeros. */
  lemma CodecExamples()
    ensures ParseColor("1A2b3C") == Some(Color(0x1A, 0x2B, 0x3C))
    ensures ParseColor("#1A2b3C") == Some(Color(0x1A, 0x2B, 0x3C))
    ensures ParseColor("1A2b3") == None
    ensures ParseColor("GG0000") == None
    ensures ParseColor("##1A2b3C") == None
    ensures ColorToString(Color(10, 0, 255)) == "0A00FF"
  {
    assert !IsHexDigit('G');
    assert !IsHexDigit('#');
    assert ColorToString(Color(10, 0, 255)) == ByteToHex(10) + ByteToHex(0) + ByteToHex(255);
  }
}
