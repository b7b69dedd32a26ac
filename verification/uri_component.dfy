/**
 `encodeURIComponent`, used to put the channel filter into the query string
 of the conversation-list request: every character outside the unreserved
 set becomes the percent-escaped bytes of its UTF-8 encoding, with upper-case
 hexadecimal digits.

 The partner definition is a percent decoder to bytes; decoding an encoding
 gives back exactly the UTF-8 bytes of the input.
 */
module UriComponent {

  import opened JsText

  type Byte = b: int | 0 <= b < 256

  /** The characters `encodeURIComponent` leaves alone. */
  predicate Unreserved(c: char) {
    || ('A' <= c <= 'Z') || ('a' <= c <= 'z') || ('0' <= c <= '9')
    || c == '-' || c == '_' || c == '.' || c == '!' || c == '~'
    || c == '*' || c == '\'' || c == '(' || c == ')'
  }

  predicate IsHexDigit(c: char) {
    ('0' <= c <= '9') || ('A' <= c <= 'F')
  }

  /** The upper-case hexadecimal digit for a value below 16. */
  function HexDigit(n: int): (c: char)
    requires 0 <= n < 16
    ensures IsHexDigit(c)
  {
    if n < 10 then ('0' as int + n) as char else ('A' as int + n - 10) as char
  }

  function HexValue(c: char): (n: int)
    requires IsHexDigit(c)
    ensures 0 <= n < 16
  {
    if c <= '9' then c as int - '0' as int else c as int - 'A' as int + 10
  }

  lemma HexValueOfDigit(n: int)
    requires 0 <= n < 16
    ensures HexValue(HexDigit(n)) == n
  {
  }

  /** The UTF-8 encoding of one Unicode scalar value (1 to 4 bytes). */
  function Utf8(c: char): (bytes: seq<Byte>)
    ensures 1 <= |bytes| <= 4
    ensures |bytes| == 1 <==> c as int < 0x80
    ensures |bytes| == 1 ==> bytes[0] == c as int
  {
    var cp := c as int;
    if cp < 0x80 then [cp]
    else if cp < 0x800 then [0xC0 + cp / 64, 0x80 + cp % 64]
    else if cp < 0x10000 then [0xE0 + cp / 4096, 0x80 + (cp / 64) % 64, 0x80 + cp % 64]
    else [0xF0 + cp / 262144, 0x80 + (cp / 4096) % 64, 0x80 + (cp / 64) % 64, 0x80 + cp % 64]
  }

  /** The UTF-8 encoding of a whole string. */
  function Utf8String(s: string): seq<Byte> {
    if |s| == 0 then [] else Utf8(s[0]) + Utf8String(s[1..])
  }

  /** `%XY` for each byte. */
  function EscapeBytes(bytes: seq<Byte>): (r: string)
    ensures |r| == 3 * |bytes|
    ensures forall k :: 0 <= k < |r| ==> r[k] == '%' || IsHexDigit(r[k])
  {
    if |bytes| == 0 then []
    else ['%', HexDigit(bytes[0] / 16), HexDigit(bytes[0] % 16)] + EscapeBytes(bytes[1..])
  }

  /** What one character becomes inside an encoded component. */
  function EncodeChar(c: char): (r: string)
    ensures Unreserved(c) ==> r == [c]
    ensures !Unreserved(c) ==> |r| >= 3 && r[0] == '%'
    ensures forall k :: 0 <= k < |r| ==> Unreserved(r[k]) || r[k] == '%'
  {
    if Unreserved(c) then [c] else EscapeBytes(Utf8(c))
  }

  /**
   `encodeURIComponent(s)`: every character of the result is unreserved or a
   percent sign, so the value can neither end the query parameter (`&`, `=`,
   `#`) nor start another part of the URL.
   */
  function EncodeComponent(s: string): (r: string)
    ensures |r| >= |s|
    ensures forall k :: 0 <= k < |r| ==> Unreserved(r[k]) || r[k] == '%'
  {
    if |s| == 0 then [] else EncodeChar(s[0]) + EncodeComponent(s[1..])
  }

  /**
   Decodes a percent-encoded component to bytes: `%XY` gives one byte, an
   ASCII character gives its own code, anything else is refused.
   */
  function PercentDecode(t: string): Option<seq<Byte>> {
    if |t| == 0 then Some([])
    else if t[0] == '%' then
      if |t| >= 3 && IsHexDigit(t[1]) && IsHexDigit(t[2]) then
        match PercentDecode(t[3..])
        case Some(rest) => Some([16 * HexValue(t[1]) + HexValue(t[2])] + rest)
        case None => None
      else None
    else if t[0] as int < 0x80 then
      match PercentDecode(t[1..])
      case Some(rest) => Some([t[0] as int] + rest)
      case None => None
    else None
  }

  lemma {:induction false} DecodeEscaped(bytes: seq<Byte>, rest: string)
    requires PercentDecode(rest).Some?
    ensures PercentDecode(EscapeBytes(bytes) + rest) == Some(bytes + PercentDecode(rest).value)
  {
    if |bytes| > 0 {
      var b := bytes[0];
      var t := EscapeBytes(bytes) + rest;
      assert t == ['%', HexDigit(b / 16), HexDigit(b % 16)] + (EscapeBytes(bytes[1..]) + rest);
      assert t[3..] == EscapeBytes(bytes[1..]) + rest;
      DecodeEscaped(bytes[1..], rest);
      HexValueOfDigit(b / 16);
      HexValueOfDigit(b % 16);
      assert 16 * HexValue(t[1]) + HexValue(t[2]) == b;
      assert PercentDecode(t) == Some([b] + (bytes[1..] + PercentDecode(rest).value));
      var decoded := PercentDecode(rest).value;
      assert bytes + decoded == [b] + (bytes[1..] + decoded);
    } else {
      assert EscapeBytes(bytes) + rest == rest;
      assert bytes + PercentDecode(rest).value == PercentDecode(rest).value;
    }
  }

  /** Decoding an encoded component gives exactly the UTF-8 bytes of the input. */
  lemma {:induction false} DecodeEncode(s: string)
    ensures PercentDecode(EncodeComponent(s)) == Some(Utf8String(s))
  {
    if |s| > 0 {
      var c := s[0];
      var tail := EncodeComponent(s[1..]);
      DecodeEncode(s[1..]);
      if Unreserved(c) {
        assert (EncodeChar(c) + tail)[1..] == tail;
      } else {
        DecodeEscaped(Utf8(c), tail);
      }
    }
  }

  /** A string made only of unreserved characters is its own encoding. */
  lemma {:induction false} EncodeUnreserved(s: string)
    requires forall k :: 0 <= k < |s| ==> Unreserved(s[k])
    ensures EncodeComponent(s) == s
  {
    if |s| > 0 {
      EncodeUnreserved(s[1..]);
      assert s == [s[0]] + s[1..];
    }
  }

  /** An encoded component can neither end a query parameter nor start a fragment. */
  lemma EncodedHasNoDelimiters(s: string)
    ensures var e := EncodeComponent(s);
            '&' !in e && '#' !in e && '=' !in e
  {
    var e := EncodeComponent(s);
    forall k | 0 <= k < |e|
      ensures e[k] != '&' && e[k] != '#' && e[k] != '='
    {
      assert Unreserved(e[k]) || e[k] == '%';
    }
  }
}
