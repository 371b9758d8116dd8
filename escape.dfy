/** `flowthings_io_http_urlencode`: libcurl's curl_easy_escape, the
    percent-encoding of section 2.1 of RFC 3986. Every character outside the
    unreserved set of section 2.3 becomes "%" followed by two upper-case
    hexadecimal digits. Characters stand for the bytes of a C string. */
module PercentEncoding {
  import opened Text

  /** The unreserved characters of section 2.3 of RFC 3986, which pass through. */
  predicate Unreserved(c: char) {
    ('A' <= c <= 'Z') || ('a' <= c <= 'z') || ('0' <= c <= '9') || c == '-' || c == '.' || c == '_' || c == '~'
  }

  predicate IsByte(c: char) {
    c as int < 256
  }

  predicate IsHexDigit(c: char) {
    ('0' <= c <= '9') || ('A' <= c <= 'F') || ('a' <= c <= 'f')
  }

  function HexValue(c: char): (n: nat)
    requires IsHexDigit(c)
    ensures n < 16
  {
    if '0' <= c <= '9' then c as int - '0' as int
    else if 'A' <= c <= 'F' then c as int - 'A' as int + 10
    else c as int - 'a' as int + 10
  }

  /** The upper-case hexadecimal digit curl prints for a nibble. */
  function HexDigit(n: nat): (c: char)
    requires n < 16
    ensures IsHexDigit(c) && Unreserved(c)
    ensures HexValue(c) == n
  {
    if n < 10 then ('0' as int + n) as char else ('A' as int + n - 10) as char
  }

  /** Characters that may appear in an escaped value. */
  predicate EscapedChar(c: char) {
    Unreserved(c) || c == '%'
  }

  /** One character, escaped. */
  function EscapeChar(c: char): (r: CString)
    ensures |r| == 1 || |r| == 3
    ensures forall i | 0 <= i < |r| :: EscapedChar(r[i])
  {
    if Unreserved(c) then [c]
    else
      var b := c as int % 256;
      ['%', HexDigit(b / 16), HexDigit(b % 16)]
  }

  /** `curl_easy_escape(curl, input, 0)`: the whole string, escaped. The
      result contains only unreserved characters and "%", so it never holds a
      delimiter of a query string ("&", "=", "#", "?"). */
  function Escape(s: string): (r: CString)
    ensures forall i | 0 <= i < |r| :: EscapedChar(r[i])
    ensures |s| <= |r| <= 3 * |s|
  {
    if s == [] then [] else EscapeChar(s[0]) + Escape(s[1..])
  }

  /** A reference percent-decoder (section 2.1 of RFC 3986): "%" and two hex
      digits, in either case, stand for that byte; anything else for itself. */
  function Unescape(s: string): string
    decreases |s|
  {
    if s == [] then []
    else if |s| >= 3 && s[0] == '%' && IsHexDigit(s[1]) && IsHexDigit(s[2]) then
      [(HexValue(s[1]) * 16 + HexValue(s[2])) as char] + Unescape(s[3..])
    else [s[0]] + Unescape(s[1..])
  }

  lemma UnescapeEscapeChar(c: char, rest: string)
    requires IsByte(c)
    ensures Unescape(EscapeChar(c) + rest) == [c] + Unescape(rest)
  {
    var e := EscapeChar(c);
    if Unreserved(c) {
      assert (e + rest)[0] == c && (e + rest)[1..] == rest;
    } else {
      var b := c as int % 256;
      assert b == c as int;
      assert (e + rest)[3..] == rest;
      assert HexValue(HexDigit(b / 16)) * 16 + HexValue(HexDigit(b % 16)) == b;
    }
  }

  /** Decoding what curl escaped gives back the original bytes. */
  lemma {:induction false} UnescapeEscape(s: string)
    requires forall i | 0 <= i < |s| :: IsByte(s[i])
    ensures Unescape(Escape(s)) == s
  {
    if s != [] {
      UnescapeEscapeChar(s[0], Escape(s[1..]));
      UnescapeEscape(s[1..]);
      assert [s[0]] + s[1..] == s;
    }
  }

  /** Escaping is injective on byte strings: distinct values never collide in
      a query string. */
  lemma EscapeInjective(s: string, t: string)
    requires forall i | 0 <= i < |s| :: IsByte(s[i])
    requires forall i | 0 <= i < |t| :: IsByte(t[i])
    requires Escape(s) == Escape(t)
    ensures s == t
  {
    UnescapeEscape(s);
    UnescapeEscape(t);
  }

  /** `flowthings_io_http_urlencode(input, output)`: append the escaped input
      to `output`. */
  method UrlEncode(input: CString, output: DynString)
    requires output.Valid()
    modifies output
    ensures output.Valid()
    ensures output.Text() == old(output.Text()) + Escape(input)
  {
    var escaped := Escape(input);
    output.Strcat(escaped);
  }
}
