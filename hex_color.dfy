/** The colour decoding done at save time: each annotation's colour string is
    cut with String.prototype.slice into characters 1-2, 3-4 and 5-6, and each
    piece is read with parseInt(piece, 16). A result that is not a number
    (NaN) is modelled as None. */
module HexColor {
  import opened Common

  /** The characters parseInt skips before the number (StrWhiteSpaceChar of
      ECMAScript: tab, line feed, vertical tab, form feed, carriage return,
      space, no-break space, byte order mark, line and paragraph separators,
      and the other space separators). */
  predicate IsJsWhitespace(c: char) {
    c == '\t' || c == '\n' || c == '\U{B}' || c == '\U{C}' || c == '\r' || c == ' '
    || c == '\U{A0}' || c == '\U{1680}' || ('\U{2000}' <= c <= '\U{200A}')
    || c == '\U{2028}' || c == '\U{2029}' || c == '\U{202F}' || c == '\U{205F}'
    || c == '\U{3000}' || c == '\U{FEFF}'
  }

  predicate IsHexDigit(c: char) {
    ('0' <= c <= '9') || ('a' <= c <= 'f') || ('A' <= c <= 'F')
  }

  function HexDigitValue(c: char): (v: nat)
    requires IsHexDigit(c)
    ensures v < 16
    ensures '0' <= c <= '9' ==> v < 10
  {
    if '0' <= c <= '9' then (c - '0') as nat
    else if 'a' <= c <= 'f' then (c - 'a') as nat + 10
    else (c - 'A') as nat + 10
  }

  /** The lower-case digit that `<input type="color">` writes for `v`. */
  function HexChar(v: nat): (c: char)
    requires v < 16
    ensures IsHexDigit(c) && HexDigitValue(c) == v
  {
    if v < 10 then ('0' as int + v) as char else ('a' as int + v - 10) as char
  }

  /** s.slice(start, end) for non-negative bounds: both are clamped to the
      length and an empty string results when start is not before end. */
  function Slice(s: string, start: nat, end: nat): (r: string)
    ensures |r| <= |s|
    ensures start <= end <= |s| ==> r == s[start..end]
    ensures end <= start ==> r == []
    ensures start <= |s| <= end ==> r == s[start..]
    ensures |s| <= start ==> r == []
  {
    var lo := Min(start, |s|);
    var hi := Max(lo, Min(end, |s|));
    s[lo..hi]
  }

  /** Leading whitespace removed; the result is a suffix of `s`. */
  function TrimStart(s: string): (r: string)
    ensures |r| <= |s| && r == s[|s| - |r|..]
    ensures r == [] || !IsJsWhitespace(r[0])
  {
    if s != [] && IsJsWhitespace(s[0]) then TrimStart(s[1..]) else s
  }

  /** Everything TrimStart drops is whitespace. */
  lemma {:induction false} TrimStartDropsWhitespace(s: string)
    ensures forall i :: 0 <= i < |s| - |TrimStart(s)| ==> IsJsWhitespace(s[i])
  {
    if s != [] && IsJsWhitespace(s[0]) {
      TrimStartDropsWhitespace(s[1..]);
    }
  }

  /** The longest prefix of hexadecimal digits. */
  function HexDigitsPrefix(s: string): (ds: string)
    ensures |ds| <= |s| && ds == s[..|ds|]
    ensures forall i :: 0 <= i < |ds| ==> IsHexDigit(ds[i])
    ensures |ds| < |s| ==> !IsHexDigit(s[|ds|])
  {
    if s != [] && IsHexDigit(s[0]) then [s[0]] + HexDigitsPrefix(s[1..]) else []
  }

  /** The base-16 value of a string of hexadecimal digits, most significant
      digit first. */
  function HexValue(ds: string): nat
    requires forall i :: 0 <= i < |ds| ==> IsHexDigit(ds[i])
  {
    if ds == [] then 0 else 16 * HexValue(ds[..|ds| - 1]) + HexDigitValue(ds[|ds| - 1])
  }

  /** parseInt(s, 16): skip whitespace, read an optional sign, drop an
      optional "0x"/"0X", then read the longest run of hexadecimal digits;
      no digits at all gives NaN (None). */
  function ParseInt16(s: string): Option<int>
  {
    var t := TrimStart(s);
    var negative := t != [] && t[0] == '-';
    var u := if t != [] && (t[0] == '-' || t[0] == '+') then t[1..] else t;
    var w := if |u| >= 2 && u[0] == '0' && (u[1] == 'x' || u[1] == 'X') then u[2..] else u;
    var ds := HexDigitsPrefix(w);
    if ds == [] then None else Some(if negative then -(HexValue(ds) as int) else HexValue(ds))
  }

  /** The three channels handed to pdf-lib's rgb(), before the division by
      255. */
  datatype Rgb = Rgb(red: Option<int>, green: Option<int>, blue: Option<int>)

  function ParseColor(color: string): Rgb {
    Rgb(ParseInt16(Slice(color, 1, 3)),
        ParseInt16(Slice(color, 3, 5)),
        ParseInt16(Slice(color, 5, 7)))
  }

  /** A colour of the form #RRGGBB with hexadecimal digits of either case. */
  predicate IsHexColor(color: string) {
    |color| == 7 && color[0] == '#' && forall i :: 1 <= i < 7 ==> IsHexDigit(color[i])
  }

  /** The base-16 value of a two-digit string. */
  function PairValue(s: string): nat
    requires |s| == 2 && IsHexDigit(s[0]) && IsHexDigit(s[1])
  {
    16 * HexDigitValue(s[0]) + HexDigitValue(s[1])
  }

  /** The value of the two digits at positions i and i + 1. */
  function Channel(color: string, i: nat): (v: nat)
    requires i + 1 < |color| && IsHexDigit(color[i]) && IsHexDigit(color[i + 1])
    ensures v == 16 * HexDigitValue(color[i]) + HexDigitValue(color[i + 1])
  {
    var piece := Slice(color, i, i + 2);
    assert piece[0] == color[i] && piece[1] == color[i + 1];
    PairValue(piece)
  }

  /** parseInt of two hexadecimal digits is their plain two-digit value, in
      [0, 255]. */
  lemma TwoDigitParse(s: string)
    requires |s| == 2 && IsHexDigit(s[0]) && IsHexDigit(s[1])
    ensures ParseInt16(s) == Some(PairValue(s))
    ensures PairValue(s) <= 255
  {
    assert !IsJsWhitespace(s[0]);
    assert TrimStart(s) == s;
    assert HexDigitsPrefix(s) == s by {
      assert HexDigitsPrefix(s[1..][1..]) == [];
      assert s == [s[0]] + [s[1]];
    }
    assert HexValue(s[..1]) == HexDigitValue(s[0]) by {
      assert s[..1][..0] == [];
    }
  }

  /** The two digits at positions i and i + 1, cut out by slice and read
      with parseInt, give their base-16 value. */
  lemma ChannelParse(color: string, i: nat)
    requires i + 1 < |color| && IsHexDigit(color[i]) && IsHexDigit(color[i + 1])
    ensures ParseInt16(Slice(color, i, i + 2)) == Some(Channel(color, i))
    ensures Channel(color, i) <= 255
  {
    var piece := Slice(color, i, i + 2);
    assert piece[0] == color[i] && piece[1] == color[i + 1];
    TwoDigitParse(piece);
  }

  /** For #RRGGBB the channels are the base-16 values of characters 1-2, 3-4
      and 5-6, each in [0, 255]. */
  lemma ParseHexColor(color: string)
    requires IsHexColor(color)
    ensures ParseColor(color) == Rgb(Some(Channel(color, 1)), Some(Channel(color, 3)), Some(Channel(color, 5)))
    ensures Channel(color, 1) <= 255 && Channel(color, 3) <= 255 && Channel(color, 5) <= 255
  {
    assert IsHexDigit(color[1]) && IsHexDigit(color[2]) && IsHexDigit(color[3]);
    assert IsHexDigit(color[4]) && IsHexDigit(color[5]) && IsHexDigit(color[6]);
    ChannelParse(color, 1);
    ChannelParse(color, 3);
    ChannelParse(color, 5);
  }

  /** All three channels are numbers in [0, 255], as rgb() expects after
      the division by 255 brings them into [0, 1]. */
  predicate ChannelsInByteRange(c: Rgb) {
    && c.red.Some? && 0 <= c.red.value <= 255
    && c.green.Some? && 0 <= c.green.value <= 255
    && c.blue.Some? && 0 <= c.blue.value <= 255
  }

  /** A #RRGGBB colour never yields a missing or out-of-range channel. */
  lemma HexColorInByteRange(color: string)
    requires IsHexColor(color)
    ensures ChannelsInByteRange(ParseColor(color))
  {
    ParseHexColor(color);
  }

  /** The colour string for three channel values, in lower case as an
      `<input type="color">` reports it. */
  function FormatColor(red: nat, green: nat, blue: nat): (color: string)
    requires red < 256 && green < 256 && blue < 256
    ensures IsHexColor(color)
  {
    ['#', HexChar(red / 16), HexChar(red % 16), HexChar(green / 16), HexChar(green % 16),
     HexChar(blue / 16), HexChar(blue % 16)]
  }

  /** The two digits written for a channel read back as that channel. */
  lemma DigitPairValue(v: nat)
    requires v < 256
    ensures 16 * HexDigitValue(HexChar(v / 16)) + HexDigitValue(HexChar(v % 16)) == v
  {
  }

  /** Decoding a colour the colour picker produced gives back its channels. */
  lemma ParseFormatRoundTrip(red: nat, green: nat, blue: nat)
    requires red < 256 && green < 256 && blue < 256
    ensures ParseColor(FormatColor(red, green, blue)) == Rgb(Some(red), Some(green), Some(blue))
  {
    var color := FormatColor(red, green, blue);
    ParseHexColor(color);
    assert color[1] == HexChar(red / 16) && color[2] == HexChar(red % 16);
    assert color[3] == HexChar(green / 16) && color[4] == HexChar(green % 16);
    assert color[5] == HexChar(blue / 16) && color[6] == HexChar(blue % 16);
    DigitPairValue(red);
    DigitPairValue(green);
    DigitPairValue(blue);
    assert Channel(color, 1) == red && Channel(color, 3) == green && Channel(color, 5) == blue;
  }
}
