/**
 The unpadded base32 encoding (section 6 of RFC 4648, lower-case alphabet) that turns
 a digest into an instance id.  A group of five bytes becomes eight characters.
 */
module Base32 {
  type Byte = b: int | 0 <= b < 256
  type Quintet = q: int | 0 <= q < 32

  const ALPHABET := "abcdefghijklmnopqrstuvwxyz234567"

  predicate InAlphabet(c: char) {
    'a' <= c <= 'z' || '2' <= c <= '7'
  }

  /** The character at position q of the alphabet, and its inverse. */
  function Symbol(q: Quintet): (c: char)
    ensures InAlphabet(c) && Value(c) == q && c == ALPHABET[q]
  {
    if q < 26 then 'a' + q as char else '2' + (q - 26) as char
  }

  function Value(c: char): Quintet
    requires InAlphabet(c)
  {
    if 'a' <= c then (c - 'a') as int else 26 + (c - '2') as int
  }

  function EncodeGroup(b: seq<Byte>): (s: string)
    requires |b| == 5
    ensures |s| == 8 && forall i :: 0 <= i < 8 ==> InAlphabet(s[i])
  {
    [ Symbol(b[0] / 8),
      Symbol(b[0] % 8 * 4 + b[1] / 64),
      Symbol(b[1] / 2 % 32),
      Symbol(b[1] % 2 * 16 + b[2] / 16),
      Symbol(b[2] % 16 * 2 + b[3] / 128),
      Symbol(b[3] / 4 % 32),
      Symbol(b[3] % 4 * 8 + b[4] / 32),
      Symbol(b[4] % 32) ]
  }

  function DecodeGroup(s: string): (b: seq<Byte>)
    requires |s| == 8 && forall i :: 0 <= i < 8 ==> InAlphabet(s[i])
    ensures |b| == 5
  {
    var q := seq(8, i requires 0 <= i < 8 => Value(s[i]));
    [ q[0] * 8 + q[1] / 4,
      q[1] % 4 * 64 + q[2] * 2 + q[3] / 16,
      q[3] % 16 * 16 + q[4] / 2,
      q[4] % 2 * 128 + q[5] * 4 + q[6] / 8,
      q[6] % 8 * 32 + q[7] ]
  }

  // The quintets of a group that hold parts of one byte are put together again.

  lemma FirstByte(a: Byte, b: Byte)
    ensures a / 8 * 8 + (a % 8 * 4 + b / 64) / 4 == a
  {}

  lemma SecondByte(a: Byte, b: Byte, c: Byte)
    ensures (a % 8 * 4 + b / 64) % 4 * 64 + b / 2 % 32 * 2 + (b % 2 * 16 + c / 16) / 16 == b
  {
    assert (a % 8 * 4 + b / 64) % 4 == b / 64 && (b % 2 * 16 + c / 16) / 16 == b % 2;
  }

  lemma ThirdByte(b: Byte, c: Byte, d: Byte)
    ensures (b % 2 * 16 + c / 16) % 16 * 16 + (c % 16 * 2 + d / 128) / 2 == c
  {
    assert (b % 2 * 16 + c / 16) % 16 == c / 16 && (c % 16 * 2 + d / 128) / 2 == c % 16;
  }

  lemma FourthByte(c: Byte, d: Byte, e: Byte)
    ensures (c % 16 * 2 + d / 128) % 2 * 128 + d / 4 % 32 * 4 + (d % 4 * 8 + e / 32) / 8 == d
  {
    assert (c % 16 * 2 + d / 128) % 2 == d / 128 && (d % 4 * 8 + e / 32) / 8 == d % 4;
  }

  lemma FifthByte(d: Byte, e: Byte)
    ensures (d % 4 * 8 + e / 32) % 8 * 32 + e % 32 == e
  {}

  lemma FirstRoundTrip(b: seq<Byte>)
    requires |b| == 5
    ensures DecodeGroup(EncodeGroup(b))[0] == b[0]
  {
    FirstByte(b[0], b[1]);
  }

  lemma SecondRoundTrip(b: seq<Byte>)
    requires |b| == 5
    ensures DecodeGroup(EncodeGroup(b))[1] == b[1]
  {
    SecondByte(b[0], b[1], b[2]);
  }

  lemma ThirdRoundTrip(b: seq<Byte>)
    requires |b| == 5
    ensures DecodeGroup(EncodeGroup(b))[2] == b[2]
  {
    ThirdByte(b[1], b[2], b[3]);
  }

  lemma FourthRoundTrip(b: seq<Byte>)
    requires |b| == 5
    ensures DecodeGroup(EncodeGroup(b))[3] == b[3]
  {
    FourthByte(b[2], b[3], b[4]);
  }

  lemma FifthRoundTrip(b: seq<Byte>)
    requires |b| == 5
    ensures DecodeGroup(EncodeGroup(b))[4] == b[4]
  {
    FifthByte(b[3], b[4]);
  }

  lemma GroupRoundTrip(b: seq<Byte>)
    requires |b| == 5
    ensures DecodeGroup(EncodeGroup(b)) == b
  {
    FirstRoundTrip(b);
    SecondRoundTrip(b);
    ThirdRoundTrip(b);
    FourthRoundTrip(b);
    FifthRoundTrip(b);
  }

  function Encode(b: seq<Byte>): (s: string)
    requires |b| % 5 == 0
    ensures |s| == |b| / 5 * 8 && forall i :: 0 <= i < |s| ==> InAlphabet(s[i])
  {
    if b == [] then [] else EncodeGroup(b[..5]) + Encode(b[5..])
  }

  function Decode(s: string): (b: seq<Byte>)
    requires |s| % 8 == 0 && forall i :: 0 <= i < |s| ==> InAlphabet(s[i])
  {
    if s == [] then [] else DecodeGroup(s[..8]) + Decode(s[8..])
  }

  /** No two byte strings share an encoding: decoding is a left inverse. */
  lemma {:induction false} RoundTrip(b: seq<Byte>)
    requires |b| % 5 == 0
    ensures Decode(Encode(b)) == b
  {
    if b != [] {
      var s := Encode(b);
      assert s[..8] == EncodeGroup(b[..5]) && s[8..] == Encode(b[5..]);
      GroupRoundTrip(b[..5]);
      RoundTrip(b[5..]);
    }
  }
}
