/** Base64 encoding with the standard alphabet and `=` padding (RFC 4648,
    section 4), as Python's `base64.b64encode(...).decode("utf-8")` produces
    it for the image bytes sent to the model. */
module Base64 {

  type Byte = b: int | 0 <= b < 256

  /** A character of the 64-letter alphabet of RFC 4648, table 1. */
  predicate IsAlphabetChar(c: char) {
    'A' <= c <= 'Z' || 'a' <= c <= 'z' || '0' <= c <= '9' || c == '+' || c == '/'
  }

  predicate IsBase64Char(c: char) {
    IsAlphabetChar(c) || c == '='
  }

  /** The character for a six-bit value, per RFC 4648, table 1. */
  function Sextet(v: int): (c: char)
    requires 0 <= v < 64
    ensures IsAlphabetChar(c)
  {
    if v < 26 then ('A' as int + v) as char
    else if v < 52 then ('a' as int + v - 26) as char
    else if v < 62 then ('0' as int + v - 52) as char
    else if v == 62 then '+'
    else '/'
  }

  /** Top six bits of the first byte. */
  function High(b0: Byte): (v: int) ensures 0 <= v < 64 { b0 / 4 }

  /** Low two bits of one byte followed by the top four bits of the next. */
  function Cross12(b0: Byte, b1: Byte): (v: int) ensures 0 <= v < 64 { b0 % 4 * 16 + b1 / 16 }

  /** Low four bits of one byte followed by the top two bits of the next. */
  function Cross24(b1: Byte, b2: Byte): (v: int) ensures 0 <= v < 64 { b1 % 16 * 4 + b2 / 64 }

  /** Low six bits of a byte. */
  function Low(b2: Byte): (v: int) ensures 0 <= v < 64 { b2 % 64 }

  /** Every three bytes become four characters; a final group of one or two
      bytes is padded with `==` or `=`. */
  function Encode(bytes: seq<Byte>): (s: string)
    ensures forall i :: 0 <= i < |s| ==> IsBase64Char(s[i])
    decreases |bytes|
  {
    if |bytes| == 0 then ""
    else if |bytes| == 1 then
      [Sextet(High(bytes[0])), Sextet(Cross12(bytes[0], 0)), '=', '=']
    else if |bytes| == 2 then
      [Sextet(High(bytes[0])), Sextet(Cross12(bytes[0], bytes[1])), Sextet(Cross24(bytes[1], 0)), '=']
    else
      [Sextet(High(bytes[0])), Sextet(Cross12(bytes[0], bytes[1])),
       Sextet(Cross24(bytes[1], bytes[2])), Sextet(Low(bytes[2]))]
      + Encode(bytes[3..])
  }

  /** Four characters for every started group of three bytes. */
  lemma {:induction false} EncodeLength(bytes: seq<Byte>)
    ensures |Encode(bytes)| == 4 * ((|bytes| + 2) / 3)
    decreases |bytes|
  {
    if |bytes| >= 3 {
      EncodeLength(bytes[3..]);
      assert (|bytes| + 2) / 3 == (|bytes[3..]| + 2) / 3 + 1;
    }
  }

  /** Encoding works block by block: bytes split after a whole number of
      three-byte groups encode to the concatenation of the two encodings. */
  lemma {:induction false} EncodeConcat(a: seq<Byte>, b: seq<Byte>)
    requires |a| % 3 == 0
    ensures Encode(a + b) == Encode(a) + Encode(b)
    decreases |a|
  {
    if |a| > 0 {
      assert (a + b)[3..] == a[3..] + b;
      assert (a + b)[..3] == a[..3];
      EncodeConcat(a[3..], b);
    } else {
      assert a + b == b;
    }
  }
}
