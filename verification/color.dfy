/** The colour conversion of the animated background: a palette entry such as
    "#238636" becomes the "r, g, b" text that is spliced into a CSS
    `rgba(r, g, b, opacity)` stroke style. Only the six-digit `#RRGGBB` form of
    the CSS hex colour notation (CSS Color Module Level 4, section 5.2) is
    recognised, with or without the leading '#', in either letter case;
    anything else yields the fixed default "35, 134, 54". */
module Color {

  datatype Option<T> = None | Some(value: T)

  /** The three channel values that the three base-16 `parseInt` calls produce. */
  datatype Rgb = Rgb(r: nat, g: nat, b: nat)

  predicate IsByte(c: Rgb) {
    c.r < 256 && c.g < 256 && c.b < 256
  }

  // ---------------------------------------------------------------------------
  // Characters

  predicate IsDigit(c: char) {
    '0' <= c <= '9'
  }

  predicate AllDigits(s: string) {
    forall i :: 0 <= i < |s| ==> IsDigit(s[i])
  }

  /** `[a-f\d]` under the case-insensitive flag: an ASCII digit or one of a-f, A-F. */
  predicate IsHexDigit(c: char) {
    IsDigit(c) || 'a' <= c <= 'f' || 'A' <= c <= 'F'
  }

  predicate IsHexSix(t: string) {
    |t| == 6 && forall i :: 0 <= i < 6 ==> IsHexDigit(t[i])
  }

  function HexValue(c: char): (v: nat)
    requires IsHexDigit(c)
    ensures v < 16
  {
    if IsDigit(c) then c as int - '0' as int
    else if 'a' <= c then c as int - 'a' as int + 10
    else c as int - 'A' as int + 10
  }

  /** ASCII lower-casing, the folding the case-insensitive flag applies to letters. */
  function LowerChar(c: char): char {
    if 'A' <= c <= 'Z' then (c as int + 32) as char else c
  }

  function LowerAscii(s: string): (t: string)
    ensures |t| == |s|
    ensures forall i :: 0 <= i < |s| ==> t[i] == LowerChar(s[i])
  {
    seq(|s|, i requires 0 <= i < |s| => LowerChar(s[i]))
  }

  // ---------------------------------------------------------------------------
  // Parsing: the anchored pattern /^#?([a-f\d]{2})([a-f\d]{2})([a-f\d]{2})$/i

  /** `parseInt(pair, 16)` of a captured pair of hex digits. */
  function ByteValue(hi: char, lo: char): (v: nat)
    requires IsHexDigit(hi) && IsHexDigit(lo)
    ensures v < 256
    ensures v / 16 == HexValue(hi) && v % 16 == HexValue(lo)
  {
    16 * HexValue(hi) + HexValue(lo)
  }

  /** The text the three capture groups must cover: what follows an optional
      leading '#'. A '#' is only consumed when six characters follow it, since
      the pattern is anchored at both ends. */
  function Body(s: string): string {
    if |s| == 7 && s[0] == '#' then s[1..] else s
  }

  /** The regular-expression match followed by the three `parseInt(…, 16)` calls;
      None when the pattern does not match. */
  function ParseHexColor(s: string): (c: Option<Rgb>)
    ensures c.Some? ==> IsByte(c.value)
  {
    var t := Body(s);
    if IsHexSix(t) then
      Some(Rgb(ByteValue(t[0], t[1]), ByteValue(t[2], t[3]), ByteValue(t[4], t[5])))
    else
      None
  }

  /** The language of the anchored pattern, stated without reference to the parser:
      an optional '#' and exactly six hex digits, nothing before or after. */
  ghost predicate MatchesHexPattern(s: string) {
    exists t :: IsHexSix(t) && (s == t || s == "#" + t)
  }

  // ---------------------------------------------------------------------------
  // Serialising: template-literal interpolation of the three numbers

  function DigitChar(d: nat): (c: char)
    requires d < 10
    ensures IsDigit(c)
  {
    ('0' as int + d) as char
  }

  function DigitValue(c: char): (d: nat)
    requires IsDigit(c)
    ensures d < 10
  {
    c as int - '0' as int
  }

  /** The decimal text of a non-negative integer as JavaScript prints it:
      at least one digit, and no leading zero except for 0 itself. */
  function Decimal(n: nat): (s: string)
    ensures |s| > 0 && AllDigits(s)
    ensures s[0] == '0' <==> n == 0
    decreases n
  {
    if n < 10 then [DigitChar(n)] else Decimal(n / 10) + [DigitChar(n % 10)]
  }

  /** Reads a string of decimal digits back as a number. */
  function DecimalValue(s: string): nat
    requires AllDigits(s)
  {
    if s == [] then 0 else 10 * DecimalValue(s[..|s| - 1]) + DigitValue(s[|s| - 1])
  }

  /** Numbers below 10, 100 and 1000 print in at most one, two and three digits. */
  lemma {:induction false} DecimalLength(n: nat)
    ensures n < 10 ==> |Decimal(n)| == 1
    ensures n < 100 ==> |Decimal(n)| <= 2
    ensures n < 1000 ==> |Decimal(n)| <= 3
    decreases n
  {
    if n >= 10 {
      DecimalLength(n / 10);
    }
  }

  /** `${r}, ${g}, ${b}`: three numbers and two separators, seven to thirteen
      characters for a byte colour. */
  function FormatRgb(c: Rgb): (s: string)
    ensures |s| >= 7
    ensures IsByte(c) ==> |s| <= 13
  {
    DecimalLength(c.r);
    DecimalLength(c.g);
    DecimalLength(c.b);
    Decimal(c.r) + ", " + Decimal(c.g) + ", " + Decimal(c.b)
  }

  const DefaultColor := Rgb(35, 134, 54)
  const DefaultRgb: string := "35, 134, 54"

  lemma DefaultRgbIsFormatted()
    ensures FormatRgb(DefaultColor) == DefaultRgb
  {
  }

  /** hexToRgb: the "r, g, b" text of a six-digit hex colour, or the default.
      Whatever the input, the result is the text of three byte values. */
  function HexToRgb(hex: string): (s: string)
    ensures exists c :: IsByte(c) && s == FormatRgb(c)
  {
    match ParseHexColor(hex)
    case Some(c) => FormatRgb(c)
    case None => DefaultRgbIsFormatted(); DefaultRgb
  }

  /** The inverse direction: a colour written as `#rrggbb` in lower-case digits. */
  function HexDigitChar(d: nat): (c: char)
    requires d < 16
    ensures IsHexDigit(c) && HexValue(c) == d
  {
    if d < 10 then DigitChar(d) else ('a' as int + d - 10) as char
  }

  function HexByte(v: nat): string
    requires v < 256
  {
    [HexDigitChar(v / 16), HexDigitChar(v % 16)]
  }

  function FormatHex(c: Rgb): string
    requires IsByte(c)
  {
    "#" + HexByte(c.r) + HexByte(c.g) + HexByte(c.b)
  }

  // ---------------------------------------------------------------------------
  // Properties of the parser

  /** The parser succeeds exactly on the strings of the anchored pattern. */
  lemma ParseSucceedsIffMatch(s: string)
    ensures ParseHexColor(s).Some? <==> MatchesHexPattern(s)
  {
    if ParseHexColor(s).Some? && |s| == 7 && s[0] == '#' {
      // the witness is the body behind the '#'
      assert s == "#" + Body(s);
    }
  }

  /** Matching input: hexToRgb yields the three parsed byte values joined by ", ". */
  lemma HexToRgbOnMatch(s: string)
    requires MatchesHexPattern(s)
    ensures ParseHexColor(s).Some?
    ensures HexToRgb(s) == FormatRgb(ParseHexColor(s).value)
  {
    ParseSucceedsIffMatch(s);
  }

  /** Non-matching input: hexToRgb falls back to the default text. */
  lemma HexToRgbFallback(s: string)
    requires !MatchesHexPattern(s)
    ensures HexToRgb(s) == DefaultRgb
  {
    ParseSucceedsIffMatch(s);
  }

  /** Any length other than six or seven falls back. */
  lemma WrongLengthFallsBack(s: string)
    requires |s| != 6 && |s| != 7
    ensures HexToRgb(s) == DefaultRgb
  {
  }

  /** A character that is not a hex digit, anywhere other than a leading '#', falls back. */
  lemma NonHexCharFallsBack(s: string, i: nat)
    requires i < |s| && !IsHexDigit(s[i]) && !(i == 0 && s[0] == '#')
    ensures HexToRgb(s) == DefaultRgb
  {
    var t := Body(s);
    if |s| == 7 && s[0] == '#' {
      assert t[i - 1] == s[i];
    } else {
      assert t[i] == s[i];
    }
  }

  /** Trailing text after a matching colour falls back: the pattern is anchored at its end. */
  lemma TrailingTextFallsBack(t: string, extra: string)
    requires MatchesHexPattern(t) && |extra| > 0
    ensures HexToRgb(t + extra) == DefaultRgb
  {
    ParseSucceedsIffMatch(t);
    var s := t + extra;
    if |s| == 7 {
      assert |t| == 6 && IsHexSix(t);
      assert s[0] == t[0] && IsHexDigit(s[0]);
      assert Body(s) == s;
    }
  }

  /** Leading text before a matching colour falls back, unless it is the single
      optional '#': the pattern is anchored at its start. */
  lemma LeadingTextFallsBack(extra: string, t: string)
    requires MatchesHexPattern(t) && |extra| > 0 && extra != "#"
    ensures HexToRgb(extra + t) == DefaultRgb
  {
    ParseSucceedsIffMatch(t);
    var s := extra + t;
    if |s| == 7 {
      assert |extra| == 1 && |t| == 6;
      assert extra == [s[0]];
      assert s[0] != '#';
      assert Body(s) == s;
      assert !IsHexSix(s) by {
        assert |s| != 6;
      }
    }
  }

  lemma LowerCharHex(c: char)
    ensures IsHexDigit(LowerChar(c)) <==> IsHexDigit(c)
    ensures IsHexDigit(c) ==> HexValue(LowerChar(c)) == HexValue(c)
  {
  }

  /** The pattern is case-insensitive: folding the input to lower case changes nothing. */
  lemma ParseIgnoresCase(s: string)
    ensures ParseHexColor(LowerAscii(s)) == ParseHexColor(s)
  {
    var l := LowerAscii(s);
    var t, u := Body(s), Body(l);
    assert |l| == 7 && l[0] == '#' <==> |s| == 7 && s[0] == '#';
    assert |u| == |t|;
    assert forall i :: 0 <= i < |t| ==> u[i] == LowerChar(t[i]);
    forall i | 0 <= i < |t| {
      LowerCharHex(t[i]);
    }
    assert IsHexSix(u) <==> IsHexSix(t);
  }

  lemma HexDigitCharOfValue(c: char)
    requires IsHexDigit(c)
    ensures HexDigitChar(HexValue(c)) == LowerChar(c)
  {
  }

  lemma HexByteOfPair(hi: char, lo: char)
    requires IsHexDigit(hi) && IsHexDigit(lo)
    ensures HexByte(ByteValue(hi, lo)) == [LowerChar(hi), LowerChar(lo)]
  {
    var v := ByteValue(hi, lo);
    assert v / 16 == HexValue(hi) && v % 16 == HexValue(lo);
    HexDigitCharOfValue(hi);
    HexDigitCharOfValue(lo);
  }

  lemma ByteValueOfHexByte(v: nat)
    requires v < 256
    ensures var h := HexByte(v); ByteValue(h[0], h[1]) == v
  {
  }

  /** Round trip from a colour: writing a colour as `#rrggbb` and parsing it gives the colour back. */
  lemma ParseFormatHex(c: Rgb)
    requires IsByte(c)
    ensures ParseHexColor(FormatHex(c)) == Some(c)
  {
    var s := FormatHex(c);
    var t := Body(s);
    assert t == HexByte(c.r) + HexByte(c.g) + HexByte(c.b);
    ByteValueOfHexByte(c.r);
    ByteValueOfHexByte(c.g);
    ByteValueOfHexByte(c.b);
  }

  /** Round trip from a string: a parsed colour, written back as `#rrggbb`, is the
      input's six digits in lower case behind a '#'. Together with ParseFormatHex
      this shows the parser loses nothing but the letter case and the optional '#'. */
  lemma FormatParsedHex(s: string)
    requires ParseHexColor(s).Some?
    ensures FormatHex(ParseHexColor(s).value) == "#" + LowerAscii(Body(s))
  {
    var t := Body(s);
    var c := ParseHexColor(s).value;
    HexByteOfPair(t[0], t[1]);
    HexByteOfPair(t[2], t[3]);
    HexByteOfPair(t[4], t[5]);
    assert LowerAscii(t) == [LowerChar(t[0]), LowerChar(t[1])] + [LowerChar(t[2]), LowerChar(t[3])]
                          + [LowerChar(t[4]), LowerChar(t[5])];
  }

  // ---------------------------------------------------------------------------
  // Properties of the serialiser

  /** Reading the decimal text of n back gives n. */
  lemma {:induction false} DecimalRoundTrip(n: nat)
    ensures DecimalValue(Decimal(n)) == n
  {
    var s := Decimal(n);
    if n >= 10 {
      DecimalRoundTrip(n / 10);
      assert s[..|s| - 1] == Decimal(n / 10);
    }
  }

  lemma FirstAfter(x: string, u: string)
    ensures |u| > 0 ==> (x + u)[|x|] == u[0]
  {
  }

  /** Two digit runs each followed by a non-digit split a string at the same place. */
  lemma DigitPrefixUnique(x: string, u: string, y: string, v: string)
    requires AllDigits(x) && AllDigits(y)
    requires |u| > 0 && !IsDigit(u[0]) && |v| > 0 && !IsDigit(v[0])
    requires x + u == y + v
    ensures x == y && u == v
  {
    if |x| < |y| {
      FirstAfter(x, u);
      assert false;
    } else if |y| < |x| {
      FirstAfter(y, v);
      assert false;
    }
    assert x == (x + u)[..|x|];
    assert y == (y + v)[..|y|];
    assert u == (x + u)[|x|..];
    assert v == (y + v)[|y|..];
  }

  /** A number's decimal text followed by ", " is a prefix that fixes the number. */
  lemma SplitAfterNumber(n: nat, rest: string, m: nat, rest': string)
    requires Decimal(n) + (", " + rest) == Decimal(m) + (", " + rest')
    ensures n == m && rest == rest'
  {
    DigitPrefixUnique(Decimal(n), ", " + rest, Decimal(m), ", " + rest');
    assert rest == (", " + rest)[2..];
    assert rest' == (", " + rest')[2..];
    DecimalRoundTrip(n);
    DecimalRoundTrip(m);
  }

  /** Distinct colours give distinct "r, g, b" texts: the output determines the colour. */
  lemma FormatRgbInjective(c: Rgb, d: Rgb)
    requires FormatRgb(c) == FormatRgb(d)
    ensures c == d
  {
    var tc := Decimal(c.g) + (", " + Decimal(c.b));
    var td := Decimal(d.g) + (", " + Decimal(d.b));
    assert FormatRgb(c) == Decimal(c.r) + (", " + tc);
    assert FormatRgb(d) == Decimal(d.r) + (", " + td);
    SplitAfterNumber(c.r, tc, d.r, td);
    SplitAfterNumber(c.g, Decimal(c.b), d.g, Decimal(d.b));
    DecimalRoundTrip(c.b);
    DecimalRoundTrip(d.b);
  }

  // ---------------------------------------------------------------------------
  // Examples

  /** Examples: the first palette entry and a string that is not a colour. */
  lemma HexToRgbExamples()
    ensures HexToRgb("#238636") == "35, 134, 54"
    ensures HexToRgb("not-a-color") == DefaultRgb
  {
    assert ParseHexColor("#238636") == Some(Rgb(35, 134, 54));
    DefaultRgbIsFormatted();
  }
}
