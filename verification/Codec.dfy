/** Hex and unpadded base64url (section 5 of RFC 4648), the two alphabets of content ids. */
module Codec {
  import opened Text
  import opened Wrappers

  // --- lowercase hex ---------------------------------------------------------------------------------

  predicate IsHexChar(c: char) {
    '0' <= c <= '9' || 'a' <= c <= 'f'
  }

  function HexChar(d: nat): (c: char)
    requires d < 16
    ensures IsHexChar(c) && HexVal(c) == d
  {
    if d < 10 then '0' + d as char else 'a' + (d - 10) as char
  }

  function HexVal(c: char): (d: nat)
    requires IsHexChar(c)
    ensures d < 16
  {
    if c <= '9' then c as int - '0' as int else c as int - 'a' as int + 10
  }

  lemma HexCharOfVal(c: char)
    requires IsHexChar(c)
    ensures HexChar(HexVal(c)) == c
  {
  }

  predicate IsHex(h: string) {
    forall i :: 0 <= i < |h| ==> IsHexChar(h[i])
  }

  /** `raw.hex()`. */
  function BytesToHex(raw: seq<Byte>): (h: string)
    ensures |h| == 2 * |raw| && IsHex(h)
  {
    seq(2 * |raw|, i requires 0 <= i < 2 * |raw| =>
      HexChar(if i % 2 == 0 then raw[i / 2] / 16 else raw[i / 2] % 16))
  }

  /** `bytes.fromhex(h)`. */
  function HexToBytes(h: string): (raw: seq<Byte>)
    requires IsHex(h) && |h| % 2 == 0
    ensures |raw| == |h| / 2
  {
    seq(|h| / 2, i requires 0 <= i < |h| / 2 => HexVal(h[2 * i]) * 16 + HexVal(h[2 * i + 1]))
  }

  lemma HexToBytesToHex(h: string)
    requires IsHex(h) && |h| % 2 == 0
    ensures BytesToHex(HexToBytes(h)) == h
  {
    var raw, r := HexToBytes(h), BytesToHex(HexToBytes(h));
    forall i | 0 <= i < |h| ensures r[i] == h[i] {
      var j := i / 2;
      HexCharOfVal(h[i]);
      Nibbles(HexVal(h[2 * j]), HexVal(h[2 * j + 1]));
      assert raw[j] == HexVal(h[2 * j]) * 16 + HexVal(h[2 * j + 1]);
      assert i == 2 * j || i == 2 * j + 1;
    }
  }

  lemma Nibbles(x: nat, y: nat)
    requires x < 16 && y < 16
    ensures (x * 16 + y) / 16 == x && (x * 16 + y) % 16 == y
  {
  }

  lemma TwoPer(i: nat)
    ensures 2 * i / 2 == i && 2 * i % 2 == 0 && (2 * i + 1) / 2 == i && (2 * i + 1) % 2 == 1
  {
  }

  lemma BytesToHexToBytes(raw: seq<Byte>)
    ensures HexToBytes(BytesToHex(raw)) == raw
  {
    var h := BytesToHex(raw);
    forall i | 0 <= i < |raw| ensures HexToBytes(h)[i] == raw[i] {
      HexPair(raw, i);
    }
  }

  /** The two digits of a byte. */
  lemma HexPair(raw: seq<Byte>, i: nat)
    requires i < |raw|
    ensures BytesToHex(raw)[2 * i] == HexChar(raw[i] / 16) && BytesToHex(raw)[2 * i + 1] == HexChar(raw[i] % 16)
  {
    TwoPer(i);
  }

  // --- base64url -------------------------------------------------------------------------------------

  predicate IsB64Char(c: char) {
    IsAlnum(c) || c == '-' || c == '_'
  }

  function B64Char(d: nat): (c: char)
    requires d < 64
    ensures IsB64Char(c) && B64Val(c) == d
  {
    if d < 26 then 'A' + d as char
    else if d < 52 then 'a' + (d - 26) as char
    else if d < 62 then '0' + (d - 52) as char
    else if d == 62 then '-' else '_'
  }

  function B64Val(c: char): (d: nat)
    requires IsB64Char(c)
    ensures d < 64
  {
    if 'A' <= c <= 'Z' then c as int - 'A' as int
    else if 'a' <= c <= 'z' then c as int - 'a' as int + 26
    else if '0' <= c <= '9' then c as int - '0' as int + 52
    else if c == '-' then 62 else 63
  }

  predicate IsB64(t: string) {
    forall i :: 0 <= i < |t| ==> IsB64Char(t[i])
  }

  /** `base64.urlsafe_b64encode(raw).rstrip('=')`. */
  function B64Encode(raw: seq<Byte>): (t: string)
    ensures IsB64(t)
  {
    if |raw| == 0 then []
    else if |raw| == 1 then [B64Char(raw[0] / 4), B64Char(raw[0] % 4 * 16)]
    else if |raw| == 2 then
      [B64Char(raw[0] / 4), B64Char(raw[0] % 4 * 16 + raw[1] / 16), B64Char(raw[1] % 16 * 4)]
    else
      [B64Char(raw[0] / 4), B64Char(raw[0] % 4 * 16 + raw[1] / 16),
       B64Char(raw[1] % 16 * 4 + raw[2] / 64), B64Char(raw[2] % 64)] + B64Encode(raw[3..])
  }

  /** `base64.urlsafe_b64decode` after padding: a lone trailing sextet is an error, and the unused
      low bits of the last sextet are dropped. */
  function B64Decode(t: string): Result<seq<Byte>>
    requires IsB64(t)
  {
    if |t| == 0 then Ok([])
    else if |t| == 1 then Err("Incorrect padding")
    else
      var s0, s1 := B64Val(t[0]), B64Val(t[1]);
      var b0 := s0 * 4 + s1 / 16;
      if |t| == 2 then Ok([b0])
      else
        var s2 := B64Val(t[2]);
        var b1 := s1 % 16 * 16 + s2 / 4;
        if |t| == 3 then Ok([b0, b1])
        else
          var rest :- B64Decode(t[4..]);
          Ok([b0, b1, s2 % 4 * 64 + B64Val(t[3])] + rest)
  }

  /** Three bytes survive the cut into four sextets. */
  lemma SextetsOf(a: Byte, b: Byte, c: Byte)
    ensures a / 4 * 4 + (a % 4 * 16 + b / 16) / 16 == a
    ensures (a % 4 * 16 + b / 16) % 16 * 16 + (b % 16 * 4 + c / 64) / 4 == b
    ensures (b % 16 * 4 + c / 64) % 4 * 64 + c % 64 == c
  {
  }

  lemma {:induction false} B64RoundTrip(raw: seq<Byte>)
    ensures B64Decode(B64Encode(raw)) == Ok(raw)
  {
    if |raw| >= 3 {
      B64RoundTrip(raw[3..]);
      SextetsOf(raw[0], raw[1], raw[2]);
      var t := B64Encode(raw);
      assert t[4..] == B64Encode(raw[3..]);
      assert B64Decode(t) == Ok([raw[0], raw[1], raw[2]] + raw[3..]);
      assert raw == [raw[0], raw[1], raw[2]] + raw[3..];
    } else if |raw| == 2 {
      SextetsOf(raw[0], raw[1], 0);
      assert raw == [raw[0], raw[1]];
    } else if |raw| == 1 {
      SextetsOf(raw[0], 0, 0);
      assert raw == [raw[0]];
    }
  }

  lemma {:induction false} B64EncodeLength(raw: seq<Byte>)
    ensures |B64Encode(raw)| == (4 * |raw| + 2) / 3
  {
    if |raw| >= 3 {
      B64EncodeLength(raw[3..]);
    }
  }

  lemma FourMore(n: nat)
    ensures (n + 4) % 4 == n % 4 && 3 * (n + 4) / 4 == 3 + 3 * n / 4
  {
  }

  /** The decoded length is fixed by the text length; 32 bytes is exactly 43 characters. */
  lemma {:induction false} B64DecodeLength(t: string)
    requires IsB64(t)
    ensures B64Decode(t).Ok? <==> |t| % 4 != 1
    ensures B64Decode(t).Ok? ==> |B64Decode(t).value| == 3 * |t| / 4
  {
    if |t| >= 4 {
      var rest := t[4..];
      B64DecodeLength(rest);
      assert |t| == |rest| + 4;
      FourMore(|rest|);
      assert B64Decode(t).Ok? == B64Decode(rest).Ok?;
      assert B64Decode(t).Ok? ==> |B64Decode(t).value| == 3 + |B64Decode(rest).value|;
    }
  }
}
