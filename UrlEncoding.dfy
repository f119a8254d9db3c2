/**
 * `java.net.URLEncoder.encode(s, "US-ASCII")`, which both VNPay classes
 * apply to parameter values, and the decoding that undoes it. Letters,
 * digits and ". - * _" are kept, a space becomes '+', any other ASCII
 * character becomes '%' and two upper-case hex digits, and a character
 * outside ASCII, which the US-ASCII charset cannot represent, is replaced
 * by '?' and so becomes "%3F".
 */
module UrlEncoding {

  predicate IsAscii(c: char) { c < 128 as char }

  predicate AllAscii(s: string) { forall i :: 0 <= i < |s| ==> IsAscii(s[i]) }

  /** Characters URLEncoder leaves as they are. */
  predicate Unreserved(c: char)
  {
    ('a' <= c <= 'z') || ('A' <= c <= 'Z') || ('0' <= c <= '9') || c == '.' || c == '-' || c == '*' || c == '_'
  }

  function HexDigit(n: nat): (c: char)
    requires n < 16
    ensures IsHexDigit(c) && HexValue(c) == n
  {
    "0123456789ABCDEF"[n]
  }

  predicate IsHexDigit(c: char) { ('0' <= c <= '9') || ('A' <= c <= 'F') || ('a' <= c <= 'f') }

  function HexValue(c: char): (n: nat)
    requires IsHexDigit(c)
    ensures n < 16
  {
    if '0' <= c <= '9' then c as int - '0' as int
    else if 'A' <= c <= 'F' then c as int - 'A' as int + 10
    else c as int - 'a' as int + 10
  }

  /** The encoding of one character. */
  function EncodeChar(c: char): (r: string)
    ensures |r| == 1 || |r| == 3
  {
    if Unreserved(c) then [c]
    else if c == ' ' then "+"
    else if IsAscii(c) then ['%', HexDigit(c as int / 16), HexDigit(c as int % 16)]
    else "%3F"
  }

  /** `URLEncoder.encode(s, "US-ASCII")` */
  function UrlEncode(s: string): (r: string)
    ensures |s| <= |r| <= 3 * |s|
  {
    if s == [] then [] else EncodeChar(s[0]) + UrlEncode(s[1..])
  }

  /** The matching decoder: '+' is a space and '%' with two hex digits is that character. */
  function UrlDecode(s: string): string
  {
    if s == [] then []
    else if s[0] == '+' then " " + UrlDecode(s[1..])
    else if s[0] == '%' && |s| >= 3 && IsHexDigit(s[1]) && IsHexDigit(s[2]) then
      [(HexValue(s[1]) * 16 + HexValue(s[2])) as char] + UrlDecode(s[3..])
    else [s[0]] + UrlDecode(s[1..])
  }

  /** The encoding never contains the separators of a query string. */
  lemma {:induction false} EncodedHasNoSeparators(s: string)
    ensures '&' !in UrlEncode(s) && '=' !in UrlEncode(s)
  {
    if s != [] {
      EncodedHasNoSeparators(s[1..]);
      assert '&' !in EncodeChar(s[0]) && '=' !in EncodeChar(s[0]);
    }
  }

  lemma DecodeEncodeChar(c: char, t: string)
    requires IsAscii(c)
    ensures UrlDecode(EncodeChar(c) + t) == [c] + UrlDecode(t)
  {
    var s := EncodeChar(c) + t;
    if Unreserved(c) {
      assert s[1..] == t;
    } else if c == ' ' {
      assert s[1..] == t;
    } else {
      assert s[3..] == t;
      assert HexValue(s[1]) * 16 + HexValue(s[2]) == c as int;
    }
  }

  /** Decoding undoes the encoding of ASCII text. */
  lemma {:induction false} DecodeEncode(s: string)
    requires AllAscii(s)
    ensures UrlDecode(UrlEncode(s)) == s
  {
    if s != [] {
      DecodeEncode(s[1..]);
      DecodeEncodeChar(s[0], UrlEncode(s[1..]));
      assert s == [s[0]] + s[1..];
    }
  }

  /** A character outside ASCII is lost: it comes back as '?'. */
  lemma NonAsciiBecomesQuestionMark(c: char)
    requires !IsAscii(c)
    ensures UrlDecode(UrlEncode([c])) == "?"
  {
    assert UrlEncode([c]) == "%3F" + [];
    DecodeEncodeChar('?', []);
  }

  /** Unreserved text is its own encoding. */
  lemma {:induction false} EncodeUnreserved(s: string)
    requires forall i :: 0 <= i < |s| ==> Unreserved(s[i])
    ensures UrlEncode(s) == s
  {
    if s != [] {
      EncodeUnreserved(s[1..]);
      assert s == [s[0]] + s[1..];
    }
  }
}
