/** Byte-level encodings used by the signature check: the UTF-8 bytes that
    `Buffer.from(string)` produces, and the lower-case hexadecimal text that
    `digest('hex')` produces. */
module Encoding {

  import opened Js

  newtype byte = x: int | 0 <= x < 0x100

  /** `Buffer.from(c)` for one character: its UTF-8 encoding (RFC 3629). */
  function Utf8Char(c: char): (r: seq<byte>)
    ensures 1 <= |r| <= 4
    ensures (r[0] < 0x80) <==> (c as int < 0x80)
    ensures c as int < 0x80 ==> r == [c as int as byte]
  {
    var n := c as int;
    if n < 0x80 then [n as byte]
    else if n < 0x800 then [(0xC0 + n / 0x40) as byte, (0x80 + n % 0x40) as byte]
    else if n < 0x1_0000 then
      [(0xE0 + n / 0x1000) as byte, (0x80 + n / 0x40 % 0x40) as byte, (0x80 + n % 0x40) as byte]
    else
      [(0xF0 + n / 0x4_0000) as byte, (0x80 + n / 0x1000 % 0x40) as byte,
       (0x80 + n / 0x40 % 0x40) as byte, (0x80 + n % 0x40) as byte]
  }

  /** `Buffer.from(s)`: the UTF-8 bytes of a string. */
  function Utf8(s: string): (r: seq<byte>)
    ensures |s| <= |r| <= 4 * |s|
  {
    if s == [] then [] else Utf8Char(s[0]) + Utf8(s[1..])
  }

  predicate IsAscii(s: string) {
    forall k :: 0 <= k < |s| ==> s[k] as int < 0x80
  }

  /** An ASCII string is encoded one byte per character, each byte its code. */
  lemma {:induction false} Utf8OfAscii(s: string)
    requires IsAscii(s)
    ensures |Utf8(s)| == |s|
    ensures forall k :: 0 <= k < |s| ==> Utf8(s)[k] == s[k] as int as byte
  {
    if s != [] {
      Utf8OfAscii(s[1..]);
    }
  }

  /** Two strings, one of them ASCII, are equal exactly when their UTF-8 bytes
      are: comparing the buffers compares the strings. */
  lemma {:induction false} Utf8MatchesAscii(s: string, t: string)
    requires IsAscii(t)
    ensures Utf8(s) == Utf8(t) <==> s == t
  {
    if Utf8(s) == Utf8(t) && s != [] && t != [] {
      Utf8OfAscii(t);
      var e := Utf8Char(s[0]);
      assert Utf8(s)[0] == e[0];
      assert e[0] < 0x80;
      assert Utf8(s)[1..] == Utf8(s[1..]);
      assert Utf8(t)[1..] == Utf8(t[1..]);
      Utf8MatchesAscii(s[1..], t[1..]);
      assert s == [s[0]] + s[1..];
      assert t == [t[0]] + t[1..];
    }
  }

  /** The lower-case hexadecimal digit for a value below 16. */
  function HexDigit(n: int): char
    requires 0 <= n < 16
  {
    if n < 10 then ('0' as int + n) as char else ('a' as int + n - 10) as char
  }

  /** The value of a lower-case hexadecimal digit, if it is one. */
  function DigitValue(c: char): (r: Option<int>)
    ensures r.Some? ==> 0 <= r.value < 16 && HexDigit(r.value) == c
  {
    if '0' <= c <= '9' then Some(c as int - '0' as int)
    else if 'a' <= c <= 'f' then Some(c as int - 'a' as int + 10)
    else None
  }

  /** `digest('hex')`: two lower-case hexadecimal digits per byte, high nibble first. */
  function Hex(bytes: seq<byte>): (r: string)
    ensures |r| == 2 * |bytes|
    ensures IsAscii(r)
  {
    if bytes == [] then ""
    else [HexDigit(bytes[0] as int / 16), HexDigit(bytes[0] as int % 16)] + Hex(bytes[1..])
  }

  /** Reads back lower-case hexadecimal text, two digits per byte. */
  function Unhex(s: string): Option<seq<byte>> {
    if s == [] then Some([])
    else if |s| == 1 then None
    else
      var hi, lo, rest := DigitValue(s[0]), DigitValue(s[1]), Unhex(s[2..]);
      if hi.Some? && lo.Some? && rest.Some?
      then Some([(hi.value * 16 + lo.value) as byte] + rest.value)
      else None
  }

  /** `Unhex` inverts `Hex`, so distinct digests have distinct hexadecimal texts. */
  lemma {:induction false} UnhexHex(bytes: seq<byte>)
    ensures Unhex(Hex(bytes)) == Some(bytes)
  {
    if bytes != [] {
      var h := Hex(bytes);
      var b := bytes[0] as int;
      assert h[2..] == Hex(bytes[1..]);
      UnhexHex(bytes[1..]);
      assert DigitValue(h[0]) == Some(b / 16);
      assert DigitValue(h[1]) == Some(b % 16);
      assert [bytes[0]] + bytes[1..] == bytes;
    }
  }

  /** Hexadecimal texts are equal exactly when the bytes they encode are. */
  lemma HexInjective(a: seq<byte>, b: seq<byte>)
    ensures Hex(a) == Hex(b) <==> a == b
  {
    if Hex(a) == Hex(b) {
      UnhexHex(a);
      UnhexHex(b);
    }
  }
}
