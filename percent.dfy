/** Percent-encoding as done by Python's `urllib.parse.quote(s, safe='')`:
    the text is encoded as UTF-8 and every octet outside the unreserved set
    of section 2.3 of RFC 3986 (ALPHA, DIGIT, '-', '.', '_', '~') becomes
    '%' followed by two upper-case hexadecimal digits (section 2.1). With
    `safe=''` not even '/' survives. */
module Percent {
  import opened Strings
  import opened Wrappers

  predicate Unreserved(c: char)
  {
    ('A' <= c <= 'Z') || ('a' <= c <= 'z') || ('0' <= c <= '9') ||
    c == '-' || c == '.' || c == '_' || c == '~'
  }

  /** The UTF-8 encoding of one Unicode scalar value. */
  function Utf8Char(c: char): (bs: seq<Byte>)
    ensures 1 <= |bs| <= 4
    ensures (|bs| == 1) == (c as int < 0x80)
    ensures |bs| == 1 ==> bs[0] == c as int
  {
    var cp := c as int;
    if cp < 0x80 then [cp]
    else if cp < 0x800 then [0xC0 + cp / 64, 0x80 + cp % 64]
    else if cp < 0x10000 then [0xE0 + cp / 4096, 0x80 + (cp / 64) % 64, 0x80 + cp % 64]
    else [0xF0 + cp / 262144, 0x80 + (cp / 4096) % 64, 0x80 + (cp / 64) % 64, 0x80 + cp % 64]
  }

  function Utf8(s: string): seq<Byte>
  {
    if s == [] then [] else Utf8Char(s[0]) + Utf8(s[1..])
  }

  /** The upper-case hexadecimal digit of `d`. */
  function HexDigit(d: int): (c: char)
    requires 0 <= d < 16
    ensures ('0' <= c <= '9') || ('A' <= c <= 'F')
  {
    if d < 10 then ('0' as int + d) as char else ('A' as int + d - 10) as char
  }

  /** The high nibble of an octet, `b // 16`, counted out by subtraction. */
  function HighNibble(b: nat): (h: nat)
    ensures 16 * h <= b < 16 * h + 16
  {
    if b < 16 then 0 else 1 + HighNibble(b - 16)
  }

  /** One octet, percent-encoded unless it is an unreserved ASCII character:
      '%' and the two hexadecimal digits of `b // 16` and `b % 16`. */
  function EncodeByte(b: Byte): (t: string)
  {
    if b < 0x80 && Unreserved(b as char) then [b as char]
    else
      var hi := HighNibble(b);
      ['%', HexDigit(hi), HexDigit(b - 16 * hi)]
  }

  function QuoteBytes(bs: seq<Byte>): string
  {
    if bs == [] then [] else EncodeByte(bs[0]) + QuoteBytes(bs[1..])
  }

  /** `quote(s, safe='')`. */
  function Quote(s: string): string
  {
    QuoteBytes(Utf8(s))
  }

  /** Value of a hexadecimal digit (either case), as `unquote` reads it. */
  function HexValue(c: char): (v: int)
    ensures -1 <= v < 16
  {
    if '0' <= c <= '9' then c as int - '0' as int
    else if 'A' <= c <= 'F' then c as int - 'A' as int + 10
    else if 'a' <= c <= 'f' then c as int - 'a' as int + 10
    else -1
  }

  /** Percent-decoding back to octets; `None` for text that is not the
      output of an encoder (a stray non-ASCII character or a bad escape). */
  function Unquote(t: string): (r: Option<seq<Byte>>)
  {
    if t == [] then Some([])
    else if t[0] == '%' then
      if |t| >= 3 && HexValue(t[1]) >= 0 && HexValue(t[2]) >= 0 then
        match Unquote(t[3..])
        case Some(rest) => Some([HexValue(t[1]) * 16 + HexValue(t[2])] + rest)
        case None => None
      else None
    else if t[0] as int < 0x80 then
      match Unquote(t[1..])
      case Some(rest) => Some([t[0] as int] + rest)
      case None => None
    else None
  }

  lemma HexDigitRoundTrip(d: int)
    requires 0 <= d < 16
    ensures HexValue(HexDigit(d)) == d
  {
  }

  lemma {:induction false} UnquoteEncodeByte(b: Byte, rest: string)
    ensures Unquote(EncodeByte(b) + rest) ==
      match Unquote(rest)
      case Some(r) => Some([b] + r)
      case None => None
  {
    var t := EncodeByte(b) + rest;
    if b < 0x80 && Unreserved(b as char) {
      assert t[0] == b as char && t[1..] == rest;
    } else {
      var hi := HighNibble(b);
      HexDigitRoundTrip(hi);
      HexDigitRoundTrip(b - 16 * hi);
      assert t[0] == '%' && t[1] == HexDigit(hi) && t[2] == HexDigit(b - 16 * hi);
      assert t[3..] == rest;
    }
  }

  /** Decoding undoes encoding: the octets of a quoted text are recovered
      exactly, so `quote` is injective on octet strings. */
  lemma {:induction false} UnquoteQuoteBytes(bs: seq<Byte>)
    ensures Unquote(QuoteBytes(bs)) == Some(bs)
  {
    if bs != [] {
      UnquoteQuoteBytes(bs[1..]);
      UnquoteEncodeByte(bs[0], QuoteBytes(bs[1..]));
      assert QuoteBytes(bs) == EncodeByte(bs[0]) + QuoteBytes(bs[1..]);
      assert bs == [bs[0]] + bs[1..];
    }
  }

  lemma UnquoteQuote(s: string)
    ensures Unquote(Quote(s)) == Some(Utf8(s))
  {
    UnquoteQuoteBytes(Utf8(s));
  }

  /** Every character of a quoted text is unreserved, '%' or an upper-case
      hex digit; in particular a quoted name never holds a '/'. */
  predicate QuotedChar(c: char)
  {
    Unreserved(c) || c == '%'
  }

  lemma {:induction false} QuoteBytesAlphabet(bs: seq<Byte>)
    ensures forall i :: 0 <= i < |QuoteBytes(bs)| ==> QuotedChar(QuoteBytes(bs)[i])
  {
    if bs != [] {
      QuoteBytesAlphabet(bs[1..]);
      var h := EncodeByte(bs[0]);
      assert forall i :: 0 <= i < |h| ==> QuotedChar(h[i]);
      var t := QuoteBytes(bs[1..]);
      assert QuoteBytes(bs) == h + t;
      forall i | 0 <= i < |h + t| ensures QuotedChar((h + t)[i]) {
        if i >= |h| {
          assert (h + t)[i] == t[i - |h|];
        }
      }
    }
  }

  lemma QuoteHasNoSeparator(s: string)
    ensures '/' !in Quote(s)
  {
    QuoteBytesAlphabet(Utf8(s));
  }

  /** A text made of unreserved characters only is left as it is. */
  lemma {:induction false} QuoteUnreserved(s: string)
    requires forall i :: 0 <= i < |s| ==> Unreserved(s[i])
    ensures Quote(s) == s
  {
    if s != [] {
      QuoteUnreserved(s[1..]);
      assert Utf8(s) == [s[0] as int] + Utf8(s[1..]);
      assert Utf8(s)[1..] == Utf8(s[1..]);
      assert ((s[0] as int) as char) == s[0];
      assert s == [s[0]] + s[1..];
    }
  }
}
