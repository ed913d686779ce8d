/** Multibase base58 with the `z` prefix (cats/network/identity/multibase.py). */
module Multibase {
  import opened Numerals
  import opened Text
  import opened Wrappers

  const BASE58_ALPHABET: string :=
    "123456789" + "ABCDEFGH" + "JKLMN" + "PQRSTUVWXYZ" + "abcdefghijk" + "mnopqrstuvwxyz"

  /** The alphabet is six runs of consecutive characters; `I`, `O`, `l` and `0` are left out. */
  predicate InAlphabet(c: char) {
    '1' <= c <= '9' || 'A' <= c <= 'H' || 'J' <= c <= 'N' || 'P' <= c <= 'Z' || 'a' <= c <= 'k' || 'm' <= c <= 'z'
  }

  /** The digit's character, `_BASE58_ALPHABET[rem]`. */
  function Base58Char(d: nat): (c: char)
    requires d < 58
    ensures InAlphabet(c) && Base58Index(c) == d
    ensures c == '1' <==> d == 0
  {
    if d < 9 then '1' + d as char
    else if d < 17 then 'A' + (d - 9) as char
    else if d < 22 then 'J' + (d - 17) as char
    else if d < 33 then 'P' + (d - 22) as char
    else if d < 44 then 'a' + (d - 33) as char
    else 'm' + (d - 44) as char
  }

  /** The lookup table `_BASE58_INDEX`. */
  function Base58Index(c: char): (d: nat)
    requires InAlphabet(c)
    ensures d < 58
  {
    var n := c as int;
    if c <= '9' then n - '1' as int
    else if c <= 'H' then n - 'A' as int + 9
    else if c <= 'N' then n - 'J' as int + 17
    else if c <= 'Z' then n - 'P' as int + 22
    else if c <= 'k' then n - 'a' as int + 33
    else n - 'm' as int + 44
  }

  lemma CharOfIndex(c: char)
    requires InAlphabet(c)
    ensures Base58Char(Base58Index(c)) == c
  {
  }

  /** The arithmetic description is the literal alphabet of the source. */
  lemma AlphabetRuns(d: nat)
    requires d < 58
    ensures |BASE58_ALPHABET| == 58 && BASE58_ALPHABET[d] == Base58Char(d)
  {
    if d < 9 {
    } else if d < 17 {
      assert BASE58_ALPHABET[d] == "ABCDEFGH"[d - 9];
    } else if d < 22 {
      assert BASE58_ALPHABET[d] == "JKLMN"[d - 17];
    } else if d < 33 {
      assert BASE58_ALPHABET[d] == "PQRSTUVWXYZ"[d - 22];
    } else if d < 44 {
      assert BASE58_ALPHABET[d] == "abcdefghijk"[d - 33];
    } else {
      assert BASE58_ALPHABET[d] == "mnopqrstuvwxyz"[d - 44];
    }
  }

  predicate OverAlphabet(t: string) {
    forall i :: 0 <= i < |t| ==> InAlphabet(t[i])
  }

  function Chars(ds: seq<nat>): (t: string)
    requires AreDigits(ds, 58)
    ensures |t| == |ds| && OverAlphabet(t)
    ensures forall i :: 0 <= i < |t| ==> t[i] == Base58Char(ds[i])
  {
    seq(|ds|, i requires 0 <= i < |ds| => Base58Char(ds[i]))
  }

  function Indices(t: string): (ds: seq<nat>)
    requires OverAlphabet(t)
    ensures |ds| == |t| && AreDigits(ds, 58)
    ensures forall i :: 0 <= i < |t| ==> ds[i] == Base58Index(t[i])
  {
    seq(|t|, i requires 0 <= i < |t| => Base58Index(t[i]))
  }

  lemma IndicesOfChars(ds: seq<nat>)
    requires AreDigits(ds, 58)
    ensures Indices(Chars(ds)) == ds
  {
  }

  lemma CharsOfIndices(t: string)
    requires OverAlphabet(t)
    ensures Chars(Indices(t)) == t
  {
    forall i | 0 <= i < |t| ensures Chars(Indices(t))[i] == t[i] {
      CharOfIndex(t[i]);
    }
  }

  // --- what the two loops compute --------------------------------------------------------------------

  /** base58 of a byte string: one `1` per leading zero byte, then the number in base 58. */
  function Encoded(data: seq<Byte>): (t: string)
    ensures OverAlphabet(t)
  {
    Chars(Transcode(data, 256, 58))
  }

  function Decoded(t: string): Result<seq<Byte>> {
    if OverAlphabet(t) then Ok(Transcode(Indices(t), 58, 256))
    else Err("Invalid base58 character")
  }

  /** Decoding undoes encoding, for every byte string and however many zero bytes it starts with. */
  lemma DecodeEncode(data: seq<Byte>)
    ensures Decoded(Encoded(data)) == Ok(data)
  {
    IndicesOfChars(Transcode(data, 256, 58));
    TranscodeRoundTrip(data, 256, 58);
  }

  /** Encoding undoes decoding on every string over the alphabet, and no other string decodes. */
  lemma EncodeDecode(t: string)
    ensures Decoded(t).Ok? <==> OverAlphabet(t)
    ensures Decoded(t).Ok? ==> Encoded(Decoded(t).value) == t
  {
    if OverAlphabet(t) {
      TranscodeRoundTrip(Indices(t), 58, 256);
      CharsOfIndices(t);
    }
  }

  // --- the loops -------------------------------------------------------------------------------------

  method CountLeading(s: seq<nat>) returns (pad: nat)
    ensures pad == LeadingZeros(s)
  {
    pad := 0;
    while pad < |s| && s[pad] == 0
      invariant pad <= |s|
      invariant LeadingZeros(s) == pad + LeadingZeros(s[pad..])
    {
      assert s[pad..][1..] == s[pad + 1..];
      pad := pad + 1;
    }
  }

  function Reversed(s: string): (r: string)
    ensures |r| == |s|
  {
    if s == [] then [] else Reversed(s[1..]) + [s[0]]
  }

  lemma {:induction false} ReversedSnoc(s: string, c: char)
    ensures Reversed(s + [c]) == [c] + Reversed(s)
  {
    if s != [] {
      assert (s + [c])[1..] == s[1..] + [c];
      ReversedSnoc(s[1..], c);
    }
  }

  function Repeat(c: char, k: nat): (s: string)
    ensures |s| == k
  {
    seq(k, _ => c)
  }

  lemma CharsConcat(a: seq<nat>, b: seq<nat>)
    requires AreDigits(a, 58) && AreDigits(b, 58)
    ensures AreDigits(a + b, 58) && Chars(a + b) == Chars(a) + Chars(b)
  {
  }

  lemma CharsOfZeros(k: nat)
    ensures Chars(Zeros(k)) == Repeat('1', k)
  {
  }

  /** One turn of the encoding loop moves the last digit from the number to the reversed text. */
  lemma EncodeStep(front: seq<nat>, d: nat, chars: string)
    requires AreDigits(front, 58) && d < 58
    ensures Chars(front + [d]) + Reversed(chars) == Chars(front) + Reversed(chars + [Base58Char(d)])
  {
    ReversedSnoc(chars, Base58Char(d));
    CharsConcat(front, [d]);
  }

  method B58Encode(data: seq<Byte>) returns (text: string)
    ensures text == Encoded(data)
  {
    var n := Value(data, 256);
    ghost var whole := n;
    var chars: string := [];
    while n > 0
      invariant Chars(Digits(whole, 58)) == Chars(Digits(n, 58)) + Reversed(chars)
      decreases n
    {
      DivSmaller(n, 58);
      EncodeStep(Digits(n / 58, 58), n % 58, chars);
      chars := chars + [Base58Char(n % 58)];
      n := n / 58;
    }
    var pad := CountLeading(data);
    text := if chars != [] || pad > 0 then Repeat('1', pad) + Reversed(chars) else [];
    CharsConcat(Zeros(pad), Digits(whole, 58));
    CharsOfZeros(pad);
  }

  /** One turn of the decoding loop. */
  lemma DecodeStep(text: string, i: nat)
    requires i < |text| && OverAlphabet(text[..i]) && InAlphabet(text[i])
    ensures OverAlphabet(text[..i + 1])
    ensures Value(Indices(text[..i + 1]), 58) == Value(Indices(text[..i]), 58) * 58 + Base58Index(text[i])
  {
    assert text[..i + 1] == text[..i] + [text[i]];
    assert Indices(text[..i + 1])[..i] == Indices(text[..i]);
  }

  /** The count of leading `1` characters is the count of leading zero digits. */
  lemma LeadingOnes(text: string, pad: nat)
    requires OverAlphabet(text) && pad <= |text|
    requires forall i :: 0 <= i < pad ==> text[i] == '1'
    requires pad < |text| ==> text[pad] != '1'
    ensures LeadingZeros(Indices(text)) == pad
  {
    var ds := Indices(text);
    if pad < |text| {
      CharOfIndex(text[pad]);
    }
  }

  /** The bytes `n.to_bytes((n.bit_length() + 7) // 8, 'big')`. */
  function Body(n: nat): (bs: seq<Byte>)
    ensures bs == Digits(n, 256)
  {
    ByteWidth(n);
    ToBytesIsDigits(n);
    if n > 0 then ToBytes(n, (BitLength(n) + 7) / 8) else []
  }

  /** The accumulation `n = n * 58 + index`, or an error at the first foreign character. */
  method Accumulate(text: string) returns (r: Result<nat>)
    ensures r.Ok? <==> OverAlphabet(text)
    ensures r.Ok? ==> r.value == Value(Indices(text), 58)
    ensures r.Err? ==> r.message == "Invalid base58 character"
  {
    var n := 0;
    for i := 0 to |text|
      invariant OverAlphabet(text[..i])
      invariant n == Value(Indices(text[..i]), 58)
    {
      if !InAlphabet(text[i]) {
        return Err("Invalid base58 character");
      }
      DecodeStep(text, i);
      n := n * 58 + Base58Index(text[i]);
    }
    assert text[..|text|] == text;
    return Ok(n);
  }

  method CountOnes(text: string) returns (pad: nat)
    requires OverAlphabet(text)
    ensures pad == LeadingZeros(Indices(text))
  {
    pad := 0;
    while pad < |text| && text[pad] == '1'
      invariant pad <= |text| && forall i :: 0 <= i < pad ==> text[i] == '1'
    {
      pad := pad + 1;
    }
    LeadingOnes(text, pad);
  }

  method B58Decode(text: string) returns (r: Result<seq<Byte>>)
    ensures r == Decoded(text)
  {
    if text == [] {
      return Ok([]);
    }
    var n :- Accumulate(text);
    var pad := CountOnes(text);
    r := Ok(Zeros(pad) + Body(n));
  }

  // --- the `z` prefix --------------------------------------------------------------------------------

  function ZEncoded(data: seq<Byte>): string {
    "z" + Encoded(data)
  }

  function ZDecoded(text: string): Result<seq<Byte>> {
    if "z" <= text then Decoded(text[1..]) else Err("Expected multibase z-prefix")
  }

  lemma ZRoundTrip(data: seq<Byte>)
    ensures ZDecoded(ZEncoded(data)) == Ok(data)
  {
    DecodeEncode(data);
  }
}
