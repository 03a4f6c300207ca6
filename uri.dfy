/**
 * `encodeURIComponent`: the percent-encoding of section 2.1 of RFC 3986 applied to the
 * UTF-8 bytes of every character outside the set the function leaves alone.
 */
module Uri {

  /** The characters `encodeURIComponent` copies unchanged: letters, digits and `-_.!~*'()`. */
  predicate Unescaped(c: char) {
    || ('A' <= c <= 'Z') || ('a' <= c <= 'z') || ('0' <= c <= '9')
    || c == '-' || c == '_' || c == '.' || c == '!' || c == '~' || c == '*'
    || c == '\'' || c == '(' || c == ')'
  }

  const HexDigits := "0123456789ABCDEF"

  /** The UTF-8 encoding of one Unicode scalar value. */
  function Utf8(c: char): (bytes: seq<int>)
    ensures 1 <= |bytes| <= 4
    ensures forall i :: 0 <= i < |bytes| ==> 0 <= bytes[i] < 256
    ensures (c as int < 0x80) <==> (bytes == [c as int])
  {
    var cp := c as int;
    if cp < 0x80 then [cp]
    else if cp < 0x800 then [0xC0 + cp / 64, 0x80 + cp % 64]
    else if cp < 0x1_0000 then [0xE0 + cp / 4096, 0x80 + (cp / 64) % 64, 0x80 + cp % 64]
    else [0xF0 + cp / 262144, 0x80 + (cp / 4096) % 64, 0x80 + (cp / 64) % 64, 0x80 + cp % 64]
  }

  /** `%XX` with upper-case hexadecimal digits. */
  function PercentByte(b: int): (r: string)
    requires 0 <= b < 256
    ensures |r| == 3 && r[0] == '%' && Unescaped(r[1]) && Unescaped(r[2])
  {
    ['%', HexDigits[b / 16], HexDigits[b % 16]]
  }

  function PercentBytes(bytes: seq<int>): (r: string)
    requires forall i :: 0 <= i < |bytes| ==> 0 <= bytes[i] < 256
    ensures |r| == 3 * |bytes|
    ensures forall i :: 0 <= i < |r| ==> r[i] == '%' || Unescaped(r[i])
  {
    if bytes == [] then [] else PercentByte(bytes[0]) + PercentBytes(bytes[1..])
  }

  function EncodeChar(c: char): string
  {
    if Unescaped(c) then [c] else PercentBytes(Utf8(c))
  }

  /** `encodeURIComponent(s)`; every character of the result is unescaped or a `%`. */
  function EncodeURIComponent(s: string): (r: string)
    ensures forall i :: 0 <= i < |r| ==> r[i] == '%' || Unescaped(r[i])
    ensures |r| >= |s|
  {
    if s == [] then [] else EncodeChar(s[0]) + EncodeURIComponent(s[1..])
  }

  /** The value of one upper-case hexadecimal digit. */
  function HexValue(c: char): (v: int)
    ensures 0 <= v < 16
  {
    if '0' <= c <= '9' then c as int - '0' as int
    else if 'A' <= c <= 'F' then c as int - 'A' as int + 10
    else 0
  }

  /** Decoding of `%XX` escapes of single bytes below 0x80; other characters are copied. */
  function DecodeAscii(s: string): string
  {
    if |s| >= 3 && s[0] == '%' then
      var b := HexValue(s[1]) * 16 + HexValue(s[2]);
      [b as char] + DecodeAscii(s[3..])
    else if s == [] then []
    else [s[0]] + DecodeAscii(s[1..])
  }

  lemma HexRoundTrip(b: int)
    requires 0 <= b < 128
    ensures HexValue(HexDigits[b / 16]) * 16 + HexValue(HexDigits[b % 16]) == b
  {
  }

  /** An ASCII string survives encoding followed by decoding. */
  lemma {:induction false} AsciiRoundTrip(s: string)
    requires forall i :: 0 <= i < |s| ==> s[i] as int < 0x80
    ensures DecodeAscii(EncodeURIComponent(s)) == s
  {
    if s != [] {
      var c := s[0];
      var rest := EncodeURIComponent(s[1..]);
      AsciiRoundTrip(s[1..]);
      assert EncodeURIComponent(s) == EncodeChar(c) + rest;
      if Unescaped(c) {
        DecodeUnescapedHead(c, rest);
      } else {
        DecodePercentHead(c, rest);
      }
      assert [s[0]] + s[1..] == s;
    }
  }

  lemma DecodeUnescapedHead(c: char, rest: string)
    requires Unescaped(c)
    ensures DecodeAscii(EncodeChar(c) + rest) == [c] + DecodeAscii(rest)
  {
    assert EncodeChar(c) == [c];
    assert c != '%';
    assert ([c] + rest)[0] == c;
    assert ([c] + rest)[1..] == rest;
  }

  lemma DecodePercentHead(c: char, rest: string)
    requires !Unescaped(c) && c as int < 0x80
    ensures DecodeAscii(EncodeChar(c) + rest) == [c] + DecodeAscii(rest)
  {
    var b := c as int;
    assert Utf8(c) == [b];
    var p := PercentByte(b);
    assert PercentBytes([b]) == p + PercentBytes([]);
    assert EncodeChar(c) == p;
    HexRoundTrip(b);
    assert (p + rest)[0] == '%' && (p + rest)[1] == p[1] && (p + rest)[2] == p[2];
    assert (p + rest)[3..] == rest;
  }
}
