/**
 * `encodeURIComponent` (section 19.2.6.5 of ECMA-262): characters outside the
 * unreserved set are written as the percent-escaped bytes of their UTF-8
 * encoding, with upper-case hexadecimal digits.
 */
module UriComponent {

  predicate IsAsciiAlphanumeric(c: char) {
    ('a' <= c <= 'z') || ('A' <= c <= 'Z') || ('0' <= c <= '9')
  }

  /** The characters `encodeURIComponent` leaves as they are. */
  predicate IsUnescaped(c: char) {
    IsAsciiAlphanumeric(c) || c in "-_.!~*'()"
  }

  predicate IsUpperHexDigit(c: char) {
    ('0' <= c <= '9') || ('A' <= c <= 'F')
  }

  function HexDigit(n: nat): (c: char)
    requires n < 16
    ensures IsUpperHexDigit(c)
  {
    "0123456789ABCDEF"[n]
  }

  /** The UTF-8 bytes of one code point. */
  function Utf8(c: char): (bytes: seq<nat>)
    ensures 1 <= |bytes| <= 4
    ensures forall k :: 0 <= k < |bytes| ==> bytes[k] < 256
    ensures (c as int < 0x80) <==> |bytes| == 1
    ensures |bytes| > 1 ==> bytes[0] >= 0xC0
    ensures forall k :: 1 <= k < |bytes| ==> 0x80 <= bytes[k] < 0xC0
  {
    var cp := c as int;
    if cp < 0x80 then [cp]
    else if cp < 0x800 then [0xC0 + cp / 0x40, 0x80 + cp % 0x40]
    else if cp < 0x1_0000 then [0xE0 + cp / 0x1000, 0x80 + (cp / 0x40) % 0x40, 0x80 + cp % 0x40]
    else [0xF0 + cp / 0x4_0000, 0x80 + (cp / 0x1000) % 0x40, 0x80 + (cp / 0x40) % 0x40, 0x80 + cp % 0x40]
  }

  /** `%XX` for every byte. */
  function PercentEscape(bytes: seq<nat>): (r: string)
    requires forall k :: 0 <= k < |bytes| ==> bytes[k] < 256
    ensures |r| == 3 * |bytes|
    ensures forall k :: 0 <= k < |r| ==> r[k] == '%' || IsUpperHexDigit(r[k])
  {
    if |bytes| == 0 then []
    else ['%', HexDigit(bytes[0] / 16), HexDigit(bytes[0] % 16)] + PercentEscape(bytes[1..])
  }

  /** A character of the encoded form: unreserved, a `%`, or a hexadecimal digit. */
  predicate IsEncodedChar(c: char) {
    IsUnescaped(c) || c == '%' || IsUpperHexDigit(c)
  }

  function EncodeURIComponent(s: string): (r: string)
    ensures |r| >= |s|
    ensures forall k :: 0 <= k < |r| ==> IsEncodedChar(r[k])
  {
    if |s| == 0 then []
    else
      (if IsUnescaped(s[0]) then [s[0]] else PercentEscape(Utf8(s[0]))) + EncodeURIComponent(s[1..])
  }

  /** A string of unreserved characters comes out unchanged. */
  lemma {:induction false} UnescapedUnchanged(s: string)
    requires forall k :: 0 <= k < |s| ==> IsUnescaped(s[k])
    ensures EncodeURIComponent(s) == s
  {
    if |s| > 0 {
      UnescapedUnchanged(s[1..]);
    }
  }

  /** No `/` survives encoding, so an encoded name stays inside one path segment. */
  lemma NoSlashAfterEncoding(s: string)
    ensures '/' !in EncodeURIComponent(s)
  {
  }
}
