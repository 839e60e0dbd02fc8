/**
 * Base 16 encoding with the lowercase alphabet (RFC 4648, section 8), as
 * hex.EncodeToString writes it, and the decoder that inverts it.
 */
module Hex {
  import opened Wrappers

  type Byte = x: int | 0 <= x < 256

  const Alphabet := "0123456789abcdef"

  predicate IsHexDigit(c: char) { c in Alphabet }

  /** Each byte becomes two lowercase digits, high nibble first. */
  function Encode(bytes: seq<Byte>): (s: string)
    ensures |s| == 2 * |bytes|
    ensures forall i :: 0 <= i < |s| ==> IsHexDigit(s[i])
  {
    if bytes == [] then []
    else [Alphabet[bytes[0] / 16], Alphabet[bytes[0] % 16]] + Encode(bytes[1..])
  }

  /** Value of one hex digit; both cases are accepted when reading. */
  function NibbleValue(c: char): (r: Option<int>)
    ensures r.Some? ==> 0 <= r.value < 16
  {
    if '0' <= c <= '9' then Some(c as int - '0' as int)
    else if 'a' <= c <= 'f' then Some(c as int - 'a' as int + 10)
    else if 'A' <= c <= 'F' then Some(c as int - 'A' as int + 10)
    else None
  }

  /** Reads pairs of hex digits back into bytes; odd length or a non-digit fails. */
  function Decode(s: string): (r: Option<seq<Byte>>)
    ensures r.Some? ==> 2 * |r.value| == |s|
  {
    if s == [] then Some([])
    else if |s| == 1 then None
    else
      var hi :- NibbleValue(s[0]);
      var lo :- NibbleValue(s[1]);
      var rest :- Decode(s[2..]);
      Some([hi * 16 + lo] + rest)
  }

  /** Position 2i holds the high nibble of byte i and 2i + 1 its low nibble. */
  lemma {:induction false} EncodeAt(bytes: seq<Byte>, i: nat)
    requires i < |bytes|
    ensures Encode(bytes)[2 * i] == Alphabet[bytes[i] / 16]
    ensures Encode(bytes)[2 * i + 1] == Alphabet[bytes[i] % 16]
  {
    if i > 0 {
      EncodeAt(bytes[1..], i - 1);
    }
  }

  lemma NibbleOfAlphabet(n: int)
    requires 0 <= n < 16
    ensures NibbleValue(Alphabet[n]) == Some(n)
  {
  }

  lemma DecodePair(c1: char, c2: char, t: string)
    requires NibbleValue(c1).Some? && NibbleValue(c2).Some? && Decode(t).Some?
    ensures Decode([c1, c2] + t)
      == Some([NibbleValue(c1).value * 16 + NibbleValue(c2).value] + Decode(t).value)
  {
    var s := [c1, c2] + t;
    assert s[0] == c1 && s[1] == c2 && s[2..] == t;
  }

  lemma SplitByte(b: Byte)
    ensures b / 16 * 16 + b % 16 == b
  {
  }

  /** Decoding an encoding gives back the bytes. */
  lemma {:induction false} RoundTrip(bytes: seq<Byte>)
    ensures Decode(Encode(bytes)) == Some(bytes)
  {
    if bytes != [] {
      var b := bytes[0];
      NibbleOfAlphabet(b / 16);
      NibbleOfAlphabet(b % 16);
      RoundTrip(bytes[1..]);
      DecodePair(Alphabet[b / 16], Alphabet[b % 16], Encode(bytes[1..]));
      SplitByte(b);
      assert [b] + bytes[1..] == bytes;
    }
  }

  /** Two byte strings with the same encoding are equal. */
  lemma EncodeInjective(a: seq<Byte>, b: seq<Byte>)
    requires Encode(a) == Encode(b)
    ensures a == b
  {
    RoundTrip(a);
    RoundTrip(b);
  }
}
