/** The two byte encodings the integrity hash goes through: the payload of an
    integrity string is base64 (section 4 of RFC 4648) and is stored in the
    SBOM as lower-case hex (base16, section 8 of RFC 4648), as Node's
    `Buffer.from(s, "base64").toString("hex")` does. The encoders are the
    inverses the round-trip lemmas are stated against. */
module Encoding {

  type Byte = x: int | 0 <= x < 256
  type Sextet = x: int | 0 <= x < 64
  type Nibble = x: int | 0 <= x < 16

  // ---------------------------------------------------------------- base64

  predicate IsBase64Char(c: char) {
    ('A' <= c <= 'Z') || ('a' <= c <= 'z') || ('0' <= c <= '9') || c == '+' || c == '/'
  }

  /** The value of one character of the base64 alphabet (Table 1 of RFC 4648). */
  function SextetValue(c: char): (v: Sextet)
    requires IsBase64Char(c)
  {
    if 'A' <= c <= 'Z' then c as int - 'A' as int
    else if 'a' <= c <= 'z' then c as int - 'a' as int + 26
    else if '0' <= c <= '9' then c as int - '0' as int + 52
    else if c == '+' then 62
    else 63
  }

  function SextetChar(v: Sextet): (c: char)
    ensures IsBase64Char(c) && SextetValue(c) == v
  {
    if v < 26 then ('A' as int + v) as char
    else if v < 52 then ('a' as int + (v - 26)) as char
    else if v < 62 then ('0' as int + (v - 52)) as char
    else if v == 62 then '+'
    else '/'
  }

  /** Four alphabet characters: a quantum that encodes three bytes. */
  predicate IsFullQuantum(q: string) {
    |q| == 4 && IsBase64Char(q[0]) && IsBase64Char(q[1]) && IsBase64Char(q[2]) && IsBase64Char(q[3])
  }

  /** The last quantum may end in `=` (two bytes) or `==` (one byte). */
  predicate IsFinalQuantum(q: string) {
    && |q| == 4
    && IsBase64Char(q[0]) && IsBase64Char(q[1])
    && ((IsBase64Char(q[2]) && (IsBase64Char(q[3]) || q[3] == '='))
        || (q[2] == '=' && q[3] == '='))
  }

  /** A padded base64 text: full quanta, the last of which may be padded. */
  predicate IsBase64(s: string)
    decreases |s|
  {
    if |s| == 0 then true
    else if |s| < 4 then false
    else if |s| == 4 then IsFinalQuantum(s)
    else IsFullQuantum(s[..4]) && IsBase64(s[4..])
  }

  /** The bytes of one quantum; bits below the last byte of a padded quantum
      are ignored, as Node's decoder does. */
  function DecodeQuantum(q: string): (r: seq<Byte>)
    requires IsFinalQuantum(q)
    ensures |r| == (if q[2] == '=' then 1 else if q[3] == '=' then 2 else 3)
  {
    var v0, v1 := SextetValue(q[0]), SextetValue(q[1]);
    var b0 := v0 * 4 + v1 / 16;
    if q[2] == '=' then [b0]
    else
      var v2 := SextetValue(q[2]);
      var b1 := (v1 % 16) * 16 + v2 / 4;
      if q[3] == '=' then [b0, b1]
      else [b0, b1, (v2 % 4) * 64 + SextetValue(q[3])]
  }

  function Base64Decode(s: string): (r: seq<Byte>)
    requires IsBase64(s)
    decreases |s|
  {
    if |s| == 0 then [] else DecodeQuantum(s[..4]) + Base64Decode(s[4..])
  }

  /** One to three bytes as a quantum, padded when short. */
  function EncodeQuantum(b: seq<Byte>): (q: string)
    requires 1 <= |b| <= 3
    ensures IsFinalQuantum(q)
    ensures q[2] == '=' <==> |b| == 1
    ensures q[3] == '=' <==> |b| < 3
  {
    var b0 := b[0];
    var c0 := SextetChar(b0 / 4);
    if |b| == 1 then [c0, SextetChar((b0 % 4) * 16), '=', '=']
    else
      var b1 := b[1];
      var c1 := SextetChar((b0 % 4) * 16 + b1 / 16);
      if |b| == 2 then [c0, c1, SextetChar((b1 % 16) * 4), '=']
      else [c0, c1, SextetChar((b1 % 16) * 4 + b[2] / 64), SextetChar(b[2] % 64)]
  }

  /** A quantum decodes to the bytes it was encoded from. */
  lemma DecodeEncodeQuantum(b: seq<Byte>)
    requires 1 <= |b| <= 3
    ensures DecodeQuantum(EncodeQuantum(b)) == b
  {
    var q := EncodeQuantum(b);
    var b0 := b[0];
    var v1 := SextetValue(q[1]);
    assert SextetValue(q[0]) == b0 / 4;
    if |b| == 1 {
      assert v1 == (b0 % 4) * 16;
    } else {
      var b1 := b[1];
      assert v1 == (b0 % 4) * 16 + b1 / 16;
      assert v1 / 16 == b0 % 4 && v1 % 16 == b1 / 16;
      var v2 := SextetValue(q[2]);
      if |b| == 2 {
        assert v2 == (b1 % 16) * 4;
      } else {
        var b2 := b[2];
        assert v2 == (b1 % 16) * 4 + b2 / 64;
        assert v2 / 4 == b1 % 16 && v2 % 4 == b2 / 64;
        assert SextetValue(q[3]) == b2 % 64;
      }
    }
  }

  function Base64Encode(b: seq<Byte>): (s: string)
    decreases |b|
  {
    if |b| == 0 then []
    else if |b| <= 3 then EncodeQuantum(b)
    else EncodeQuantum(b[..3]) + Base64Encode(b[3..])
  }

  /** Every byte string is recovered from its base64 text. */
  lemma {:induction false} Base64RoundTrip(b: seq<Byte>)
    ensures IsBase64(Base64Encode(b))
    ensures Base64Decode(Base64Encode(b)) == b
    decreases |b|
  {
    if |b| <= 3 && |b| != 0 {
      var q := EncodeQuantum(b);
      DecodeEncodeQuantum(b);
      assert q[..4] == q && q[4..] == [];
      assert Base64Decode(q) == DecodeQuantum(q) + [] == b;
    } else if 3 < |b| {
      var q, rest := EncodeQuantum(b[..3]), Base64Encode(b[3..]);
      DecodeEncodeQuantum(b[..3]);
      Base64RoundTrip(b[3..]);
      var s := q + rest;
      assert Base64Encode(b) == s;
      assert s[..4] == q && s[4..] == rest;
      assert |rest| > 0 && IsFullQuantum(q);
      assert Base64Decode(s) == DecodeQuantum(q) + Base64Decode(rest) == b[..3] + b[3..];
      assert b == b[..3] + b[3..];
    }
  }

  // ---------------------------------------------------------------- base16

  predicate IsLowerHexDigit(c: char) {
    ('0' <= c <= '9') || ('a' <= c <= 'f')
  }

  function HexDigit(v: Nibble): (c: char)
    ensures IsLowerHexDigit(c)
  {
    if v < 10 then ('0' as int + v) as char else ('a' as int + (v - 10)) as char
  }

  function HexValue(c: char): (v: Nibble)
    requires IsLowerHexDigit(c)
  {
    if c <= '9' then c as int - '0' as int else c as int - 'a' as int + 10
  }

  /** Each byte as two lower-case hex digits, high nibble first. */
  function HexEncode(b: seq<Byte>): (s: string)
    ensures |s| == 2 * |b|
    ensures forall i :: 0 <= i < |s| ==> IsLowerHexDigit(s[i])
  {
    if b == [] then [] else [HexDigit(b[0] / 16), HexDigit(b[0] % 16)] + HexEncode(b[1..])
  }

  predicate IsHex(s: string) {
    |s| % 2 == 0 && forall i :: 0 <= i < |s| ==> IsLowerHexDigit(s[i])
  }

  function HexDecode(s: string): (b: seq<Byte>)
    requires IsHex(s)
    ensures |b| == |s| / 2
    decreases |s|
  {
    if s == [] then [] else [HexValue(s[0]) * 16 + HexValue(s[1])] + HexDecode(s[2..])
  }

  /** Every byte string is recovered from its hex text. */
  lemma {:induction false} HexRoundTrip(b: seq<Byte>)
    ensures IsHex(HexEncode(b))
    ensures HexDecode(HexEncode(b)) == b
  {
    if b != [] {
      HexRoundTrip(b[1..]);
      var s := HexEncode(b);
      assert s[2..] == HexEncode(b[1..]);
      assert HexValue(HexDigit(b[0] / 16)) == b[0] / 16;
      assert HexValue(HexDigit(b[0] % 16)) == b[0] % 16;
    }
  }
}
