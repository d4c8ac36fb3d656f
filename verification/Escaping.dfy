/** net/url's QueryEscape and QueryUnescape over bytes: percent-encoding (RFC 3986, section 2.1),
    the unreserved set (RFC 3986, section 2.3), and '+' for a space (HTML 4.01, section
    17.13.4.1). A byte is a character below 256. */
module Escaping {
  import opened Wrappers

  type byte = c: char | c as int < 256 witness 'a'
  type bytes = seq<byte>

  predicate Unreserved(c: byte) {
    'a' <= c <= 'z' || 'A' <= c <= 'Z' || '0' <= c <= '9' || c == '-' || c == '_' || c == '.' || c == '~'
  }

  predicate IsHex(c: byte) {
    '0' <= c <= '9' || 'a' <= c <= 'f' || 'A' <= c <= 'F'
  }

  function UnHex(c: byte): (n: nat)
    requires IsHex(c)
    ensures n < 16
  {
    if '0' <= c <= '9' then c as int - '0' as int
    else if 'a' <= c <= 'f' then c as int - 'a' as int + 10
    else c as int - 'A' as int + 10
  }

  /** The upper-case hexadecimal digit of a nibble, read back by UnHex. */
  function UpperHex(n: nat): (c: byte)
    requires n < 16
    ensures IsHex(c) && UnHex(c) == n
  {
    if n < 10 then ('0' as int + n) as char else ('A' as int + n - 10) as char
  }

  function EscapeByte(c: byte): (r: bytes)
    ensures |r| == 1 || |r| == 3
  {
    if c == ' ' then ['+']
    else if Unreserved(c) then [c]
    else ['%', UpperHex(c as int / 16), UpperHex(c as int % 16)]
  }

  function QueryEscape(s: bytes): bytes {
    if |s| == 0 then [] else EscapeByte(s[0]) + QueryEscape(s[1..])
  }

  /** None is url.EscapeError: a '%' not followed by two hexadecimal digits. */
  function QueryUnescape(s: bytes): Option<bytes> {
    if |s| == 0 then Some([])
    else if s[0] == '%' then
      if |s| < 3 || !IsHex(s[1]) || !IsHex(s[2]) then None
      else Prepend((16 * UnHex(s[1]) + UnHex(s[2])) as char, QueryUnescape(s[3..]))
    else Prepend(if s[0] == '+' then ' ' else s[0], QueryUnescape(s[1..]))
  }

  function Prepend(c: byte, rest: Option<bytes>): Option<bytes> {
    if rest.None? then None else Some([c] + rest.value)
  }

  /** Escaping loses nothing: unescaping gives the original bytes back and never fails. */
  lemma {:induction false} UnescapeEscape(s: bytes)
    ensures QueryUnescape(QueryEscape(s)) == Some(s)
  {
    if |s| > 0 {
      var c, rest := s[0], QueryEscape(s[1..]);
      var all := EscapeByte(c) + rest;
      UnescapeEscape(s[1..]);
      assert s == [c] + s[1..];
      if c == ' ' || Unreserved(c) {
        assert all[1..] == rest;
      } else {
        assert all[3..] == rest;
        assert (16 * UnHex(all[1]) + UnHex(all[2])) as char == c;
      }
    }
  }

  /** No byte with a meaning to the query syntax or to the message framing survives escaping. */
  lemma {:induction false} EscapeIsPlain(s: bytes, c: byte)
    requires c in QueryEscape(s)
    ensures c != '&' && c != '=' && c != ';' && c != '\n'
  {
    if c !in EscapeByte(s[0]) {
      EscapeIsPlain(s[1..], c);
    }
  }

  const UPPER_DIGITS := "0123456789ABCDEF"
  const LOWER_DIGITS := "0123456789abcdef"

  lemma UpperDigit(n: nat)
    requires n < 16
    ensures UpperHex(n) == UPPER_DIGITS[n]
  {
  }

  lemma DigitValue(n: nat)
    requires n < 16
    ensures IsHex(UPPER_DIGITS[n]) && UnHex(UPPER_DIGITS[n]) == n && IsHex(LOWER_DIGITS[n]) && UnHex(LOWER_DIGITS[n]) == n
  {
  }

  lemma HexDigit(c: byte)
    requires IsHex(c)
    ensures c in UPPER_DIGITS || c in LOWER_DIGITS
  {
    if c <= '9' {
      assert UPPER_DIGITS[c as int - '0' as int] == c;
    } else if c <= 'F' {
      assert UPPER_DIGITS[c as int - 'A' as int + 10] == c;
    } else {
      assert LOWER_DIGITS[c as int - 'a' as int + 10] == c;
    }
  }

  /** The letters, the digits and -._~ by their codes. */
  predicate Plain(code: int) {
    65 <= code <= 90 || 97 <= code <= 122 || 48 <= code <= 57 || code == 45 || code == 46 || code == 95 || code == 126
  }

  /** A byte is kept, or a space becomes a plus, or it becomes a percent sign and two upper-case digits; the
      text of several is that of each in turn. */
  lemma EscapeExact(c: byte, s: bytes)
    ensures QueryEscape([c] + s) == EscapeByte(c) + QueryEscape(s)
    ensures EscapeByte(c) == if Plain(c as int) then [c] else if c == ' ' then ['+']
                             else ['%', UPPER_DIGITS[c as int / 16], UPPER_DIGITS[c as int % 16]]
  {
    assert ([c] + s)[1..] == s;
    UpperDigit(c as int / 16);
    UpperDigit(c as int % 16);
  }

  lemma UnescapeDigits(a: byte, b: byte, s: bytes)
    requires IsHex(a) && IsHex(b)
    ensures QueryUnescape(['%', a, b] + s) == Prepend((16 * UnHex(a) + UnHex(b)) as char, QueryUnescape(s))
  {
    assert (['%', a, b] + s)[3..] == s;
  }

  lemma UnescapeOne(c: byte, s: bytes)
    requires c != '%'
    ensures QueryUnescape([c] + s) == Prepend(if c == '+' then ' ' else c, QueryUnescape(s))
  {
    assert ([c] + s)[1..] == s;
  }

  /** Unescaping takes two digits of either case after a percent sign, and a plus for a space. */
  lemma UnescapeExact(c: byte, high: nat, low: nat, s: bytes)
    requires high < 16 && low < 16
    ensures QueryUnescape(['%', UPPER_DIGITS[high], UPPER_DIGITS[low]] + s) ==
            Prepend((16 * high + low) as char, QueryUnescape(s))
    ensures QueryUnescape(['%', LOWER_DIGITS[high], LOWER_DIGITS[low]] + s) ==
            Prepend((16 * high + low) as char, QueryUnescape(s))
    ensures c != '%' ==> QueryUnescape([c] + s) == Prepend(if c == '+' then ' ' else c, QueryUnescape(s))
  {
    DigitValue(high);
    DigitValue(low);
    UnescapeDigits(UPPER_DIGITS[high], UPPER_DIGITS[low], s);
    UnescapeDigits(LOWER_DIGITS[high], LOWER_DIGITS[low], s);
    if c != '%' { UnescapeOne(c, s); }
  }

  /** It fails on a percent sign without two digits. */
  lemma UnescapeFails(s: bytes)
    requires QueryUnescape(['%'] + s).Some?
    ensures |s| >= 2 && (s[0] in UPPER_DIGITS || s[0] in LOWER_DIGITS) && (s[1] in UPPER_DIGITS || s[1] in LOWER_DIGITS)
  {
    HexDigit(s[0]);
    HexDigit(s[1]);
  }
}
