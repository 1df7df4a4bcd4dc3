/**
 * Lower-case hexadecimal encoding of bytes, as `hex.EncodeToString` produces
 * it (two characters per byte, high nibble first), and the strict decoder
 * that undoes it. The decoder accepts only what the encoder can produce.
 */
module Hex {
  import opened Wrappers
  import opened Bytes

  predicate IsLowerHexDigit(c: char) {
    '0' <= c <= '9' || 'a' <= c <= 'f'
  }

  /** The digit for a nibble: '0'..'9' then 'a'..'f'. */
  function Digit(n: nat): (c: char)
    requires n < 16
    ensures IsLowerHexDigit(c)
  {
    if n < 10 then ('0' as int + n) as char else ('a' as int + n - 10) as char
  }

  /** The nibble a lower-case digit stands for; anything else (an upper-case digit included) is `None`. */
  function DigitValue(c: char): (r: Option<nat>)
    ensures r.Some? <==> IsLowerHexDigit(c)
    ensures r.Some? ==> r.value < 16
  {
    if '0' <= c <= '9' then Some(c as int - '0' as int)
    else if 'a' <= c <= 'f' then Some(c as int - 'a' as int + 10)
    else None
  }

  /** Reading back the digit of a nibble gives the nibble. */
  lemma DigitRoundTrip(n: nat)
    requires n < 16
    ensures DigitValue(Digit(n)) == Some(n)
  {
  }

  /** Every lower-case digit is the digit of the nibble it stands for. */
  lemma DigitValueRoundTrip(c: char)
    requires IsLowerHexDigit(c)
    ensures Digit(DigitValue(c).value) == c
  {
  }

  /** The high nibble of a byte. */
  function High(b: byte): (n: nat)
    ensures n < 16
  {
    b as int / 16
  }

  /** The low nibble of a byte. */
  function Low(b: byte): (n: nat)
    ensures n < 16
  {
    b as int % 16
  }

  /** The byte with high nibble `hi` and low nibble `lo`. */
  function Join(hi: nat, lo: nat): byte
    requires hi < 16 && lo < 16
  {
    (hi * 16 + lo) as byte
  }

  /** A byte is rebuilt from its two nibbles. */
  lemma JoinSplit(b: byte)
    ensures Join(High(b), Low(b)) == b
  {
  }

  /** The byte built from two nibbles splits back into them. */
  lemma SplitJoin(hi: nat, lo: nat)
    requires hi < 16 && lo < 16
    ensures High(Join(hi, lo)) == hi && Low(Join(hi, lo)) == lo
  {
  }

  function EncodeByte(b: byte): string {
    [Digit(High(b)), Digit(Low(b))]
  }

  /** `hex.EncodeToString`. */
  function Encode(bytes: seq<byte>): (s: string)
    ensures |s| == 2 * |bytes|
    ensures forall i :: 0 <= i < |s| ==> IsLowerHexDigit(s[i])
  {
    if bytes == [] then [] else EncodeByte(bytes[0]) + Encode(bytes[1..])
  }

  /** Strict decoding: even length, lower-case digits only. */
  function Decode(s: string): (r: Option<seq<byte>>)
    decreases |s|
  {
    if s == [] then Some([])
    else if |s| == 1 then None
    else
      match (DigitValue(s[0]), DigitValue(s[1]), Decode(s[2..]))
      case (Some(hi), Some(lo), Some(rest)) => Some([Join(hi, lo)] + rest)
      case _ => None
  }

  /** One decoding step: two digits followed by a decodable rest. */
  lemma DecodeStep(s: string)
    requires |s| >= 2
    requires DigitValue(s[0]).Some? && DigitValue(s[1]).Some? && Decode(s[2..]).Some?
    ensures Decode(s) == Some([Join(DigitValue(s[0]).value, DigitValue(s[1]).value)] + Decode(s[2..]).value)
  {
  }

  /** Decoding an encoding gives the bytes back. */
  lemma {:induction false} DecodeEncode(bytes: seq<byte>)
    ensures Decode(Encode(bytes)) == Some(bytes)
  {
    if bytes != [] {
      var b, rest := bytes[0], bytes[1..];
      DecodeEncode(rest);
      var s := Encode(bytes);
      assert s == EncodeByte(b) + Encode(rest);
      assert s[0] == Digit(High(b)) && s[1] == Digit(Low(b));
      assert s[2..] == Encode(rest);
      DigitRoundTrip(High(b));
      DigitRoundTrip(Low(b));
      DecodeStep(s);
      JoinSplit(b);
      assert [b] + rest == bytes;
    }
  }

  /** Whatever decodes is the encoding of what it decodes to: the encoding is canonical. */
  lemma {:induction false} EncodeDecode(s: string, bytes: seq<byte>)
    requires Decode(s) == Some(bytes)
    ensures Encode(bytes) == s
  {
    if s != [] {
      assert |s| >= 2;
      var hi, lo, rest := DigitValue(s[0]).value, DigitValue(s[1]).value, Decode(s[2..]).value;
      EncodeDecode(s[2..], rest);
      DecodeStep(s);
      var b := Join(hi, lo);
      assert bytes == [b] + rest;
      SplitJoin(hi, lo);
      DigitValueRoundTrip(s[0]);
      DigitValueRoundTrip(s[1]);
      assert EncodeByte(b) == [s[0], s[1]];
      assert bytes[1..] == rest;
      assert s == [s[0], s[1]] + s[2..];
    }
  }

  /** Two byte strings have the same encoding only if they are equal. */
  lemma EncodeInjective(a: seq<byte>, b: seq<byte>)
    requires Encode(a) == Encode(b)
    ensures a == b
  {
    DecodeEncode(a);
    DecodeEncode(b);
  }
}
