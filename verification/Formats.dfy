/** The text formats of identifiers, told apart from the functions that print them: which bits which character
    stands for (sections 5 and 8 of RFC 4648), and the literal text around them. */
module Formats {
  import opened Codec
  import opened ContentRef
  import opened DidKey
  import opened Digest
  import opened Hashlink
  import opened Multibase
  import opened Numerals
  import opened Partition
  import opened Text
  import opened Wrappers

  // --- bits ------------------------------------------------------------------------------------------

  /** The `width` low bits of a digit, highest first. */
  ghost function BitsOf(d: nat, width: nat): (bits: seq<nat>)
    ensures |bits| == width
  {
    if width == 0 then [] else BitsOf(d / 2, width - 1) + [d % 2]
  }

  /** The bits of digits of one width, one after the other. */
  ghost function Bits(ds: seq<nat>, width: nat): (bits: seq<nat>)
    ensures |bits| == |ds| * width
  {
    if ds == [] then []
    else
      var bits := BitsOf(ds[0], width) + Bits(ds[1..], width);
      assert |bits| == width + (|ds| - 1) * width == |ds| * width;
      bits
  }

  ghost function Pow2(k: nat): (p: nat)
    ensures p > 0
  {
    if k == 0 then 1 else 2 * Pow2(k - 1)
  }

  /** Bits of a number in two parts. */
  lemma {:induction false} BitsJoin(x: nat, y: nat, w: nat, k: nat)
    requires y < Pow2(k)
    ensures BitsOf(x * Pow2(k) + y, w + k) == BitsOf(x, w) + BitsOf(y, k)
  {
    if k != 0 {
      var p := Pow2(k - 1);
      var n := x * Pow2(k) + y;
      assert n == 2 * (x * p) + y;
      assert n / 2 == x * p + y / 2 && n % 2 == y % 2;
      BitsJoin(x, y / 2, w, k - 1);
    }
  }

  lemma {:induction false} BitsConcat(a: seq<nat>, b: seq<nat>, width: nat)
    ensures Bits(a + b, width) == Bits(a, width) + Bits(b, width)
  {
    if a == [] {
      assert a + b == b;
    } else {
      assert (a + b)[1..] == a[1..] + b;
      BitsConcat(a[1..], b, width);
    }
  }

  lemma BitsOfOne(x: nat, width: nat)
    ensures Bits([x], width) == BitsOf(x, width)
  {
  }

  lemma PowersOfTwo()
    ensures Pow2(2) == 4 && Pow2(4) == 16 && Pow2(6) == 64
  {
    assert Pow2(1) == 2 && Pow2(3) == 8 && Pow2(5) == 32;
  }

  lemma BitsCut(n: nat, x: nat, p: nat, y: nat, w: nat, k: nat)
    requires p == Pow2(k) && n == x * p + y && y < p
    ensures BitsOf(n, w + k) == BitsOf(x, w) + BitsOf(y, k)
  {
    BitsJoin(x, y, w, k);
  }

  // --- hex -------------------------------------------------------------------------------------------

  /** The sixteen digits. */
  lemma HexAlphabet(d: nat)
    requires d < 16
    ensures HexChar(d) == "0123456789abcdef"[d]
  {
  }

  /** These are the digits of a text. */
  ghost predicate Spells(ds: seq<nat>, text: string, alphabet: string) {
    |ds| == |text| && forall i :: 0 <= i < |ds| ==> ds[i] < |alphabet| && text[i] == alphabet[ds[i]]
  }

  lemma HexDigit(d: nat)
    requires d < 16
    ensures HexVal("0123456789abcdef"[d]) == d
  {
    HexAlphabet(d);
  }

  /** The bits of lowercase hex are the bits of the bytes. */
  lemma {:induction false} HexBits(raw: seq<Byte>, ds: seq<nat>)
    requires Spells(ds, BytesToHex(raw), "0123456789abcdef")
    ensures Bits(ds, 4) == Bits(raw, 8)
  {
    if raw != [] {
      HexStep(raw, ds);
      HexBits(raw[1..], ds[2..]);
      FirstTwo(ds, 4);
    }
  }

  lemma HexStep(raw: seq<Byte>, ds: seq<nat>)
    requires raw != [] && Spells(ds, BytesToHex(raw), "0123456789abcdef")
    ensures |ds| >= 2 && Spells(ds[2..], BytesToHex(raw[1..]), "0123456789abcdef")
    ensures BitsOf(raw[0], 8) == BitsOf(ds[0], 4) + BitsOf(ds[1], 4)
  {
    assert BytesToHex(raw)[2..] == BytesToHex(raw[1..]);
    HexPair(raw, 0);
    HexDigit(ds[0]);
    HexDigit(ds[1]);
    MiddleByte(raw[0]);
  }

  lemma FirstTwo(ds: seq<nat>, width: nat)
    requires |ds| >= 2
    ensures Bits(ds, width) == BitsOf(ds[0], width) + BitsOf(ds[1], width) + Bits(ds[2..], width)
  {
    assert ds[1..][1..] == ds[2..];
  }

  // --- base64url -------------------------------------------------------------------------------------

  const UPPER: string := "ABCDEFGHIJKLMNOPQRSTUVWXYZ"
  const LOWER: string := "abcdefghijklmnopqrstuvwxyz"
  const DIGITS: string := "0123456789"

  /** The alphabet of section 5 of RFC 4648. */
  const B64URL: string := UPPER + LOWER + DIGITS + "-_"

  lemma B64Alphabet(d: nat)
    requires d < 64
    ensures |B64URL| == 64 && B64URL[d] == B64Char(d)
  {
    if d < 26 {
      assert B64URL[d] == UPPER[d];
    } else if d < 52 {
      assert B64URL[d] == LOWER[d - 26];
    } else if d < 62 {
      assert B64URL[d] == DIGITS[d - 52];
    }
  }

  /** The digits of a text by the decoder's table. */
  ghost function Sextets(text: string): (ds: seq<nat>)
    requires IsB64(text)
    ensures |ds| == |text| && forall i :: 0 <= i < |ds| ==> ds[i] == B64Val(text[i])
  {
    seq(|text|, i requires 0 <= i < |text| => B64Val(text[i]))
  }

  lemma FirstSextet(b: Byte)
    ensures BitsOf(b, 8) == BitsOf(b / 4, 6) + BitsOf(b % 4, 2)
  {
    PowersOfTwo();
    BitsCut(b, b / 4, 4, b % 4, 6, 2);
  }

  lemma MiddleByte(b: Byte)
    ensures BitsOf(b, 8) == BitsOf(b / 16, 4) + BitsOf(b % 16, 4)
  {
    PowersOfTwo();
    BitsCut(b, b / 16, 16, b % 16, 4, 4);
  }

  lemma LastSextet(b: Byte)
    ensures BitsOf(b, 8) == BitsOf(b / 64, 2) + BitsOf(b % 64, 6)
  {
    PowersOfTwo();
    BitsCut(b, b / 64, 64, b % 64, 2, 6);
  }

  lemma SecondSextet(a: Byte, b: Byte)
    ensures BitsOf(a % 4 * 16 + b / 16, 6) == BitsOf(a % 4, 2) + BitsOf(b / 16, 4)
  {
    PowersOfTwo();
    BitsCut(a % 4 * 16 + b / 16, a % 4, 16, b / 16, 2, 4);
  }

  lemma ThirdSextet(b: Byte, c: Byte)
    ensures BitsOf(b % 16 * 4 + c / 64, 6) == BitsOf(b % 16, 4) + BitsOf(c / 64, 2)
  {
    PowersOfTwo();
    BitsCut(b % 16 * 4 + c / 64, b % 16, 4, c / 64, 4, 2);
  }

  lemma ThreeBytes(a: Byte, b: Byte, c: Byte)
    ensures BitsOf(a, 8) + BitsOf(b, 8) + BitsOf(c, 8)
         == BitsOf(a / 4, 6) + BitsOf(a % 4 * 16 + b / 16, 6) + BitsOf(b % 16 * 4 + c / 64, 6) + BitsOf(c % 64, 6)
  {
    FirstSextet(a);
    SecondSextet(a, b);
    ThirdSextet(b, c);
    LastSextet(c);
    MiddleByte(b);
    Regroup(BitsOf(a / 4, 6), BitsOf(a % 4, 2), BitsOf(b / 16, 4), BitsOf(b % 16, 4), BitsOf(c / 64, 2),
            BitsOf(c % 64, 6));
  }

  lemma Regroup(a: seq<nat>, b: seq<nat>, c: seq<nat>, d: seq<nat>, e: seq<nat>, f: seq<nat>)
    ensures (a + b) + (c + d) + (e + f) == a + (b + c) + (d + e) + f
  {
  }

  /** The bits of unpadded base64url are the bits of the bytes and less than a sextet of zeros. */
  lemma B64Bits(raw: seq<Byte>) returns (pad: seq<nat>)
    ensures Bits(Sextets(B64Encode(raw)), 6) == Bits(raw, 8) + pad
    ensures |pad| < 6 && forall i :: 0 <= i < |pad| ==> pad[i] == 0
  {
    pad := SextetBits(raw);
    B64EncodeLength(raw);
    var n, m := |raw|, |B64Encode(raw)|;
    assert |Bits(Sextets(B64Encode(raw)), 6)| == m * 6 && |Bits(raw, 8)| == n * 8;
    PadLength(n, m);
  }

  lemma PadLength(n: nat, m: nat)
    requires m == (4 * n + 2) / 3
    ensures 0 <= m * 6 - n * 8 < 6
  {
  }

  lemma {:induction false} SextetBits(raw: seq<Byte>) returns (pad: seq<nat>)
    ensures Bits(Sextets(B64Encode(raw)), 6) == Bits(raw, 8) + pad
    ensures forall i :: 0 <= i < |pad| ==> pad[i] == 0
  {
    if |raw| >= 3 {
      pad := SextetBits(raw[3..]);
      GroupBits(raw);
    } else {
      pad := TailBits(raw);
    }
  }

  lemma SextetsConcat(a: string, b: string)
    requires IsB64(a) && IsB64(b)
    ensures IsB64(a + b) && Sextets(a + b) == Sextets(a) + Sextets(b)
  {
  }

  /** The first four characters carry the first three bytes. */
  lemma EncodeGroup(raw: seq<Byte>) returns (head: string)
    requires |raw| >= 3
    ensures |head| == 4 && IsB64(head) && B64Encode(raw) == head + B64Encode(raw[3..])
    ensures FourBits(Sextets(head)) == BitsOf(raw[0], 8) + BitsOf(raw[1], 8) + BitsOf(raw[2], 8)
  {
    head := [B64Char(raw[0] / 4), B64Char(raw[0] % 4 * 16 + raw[1] / 16),
             B64Char(raw[1] % 16 * 4 + raw[2] / 64), B64Char(raw[2] % 64)];
    ThreeBytes(raw[0], raw[1], raw[2]);
  }

  ghost function FourBits(ds: seq<nat>): (bits: seq<nat>)
    requires |ds| == 4
  {
    BitsOf(ds[0], 6) + BitsOf(ds[1], 6) + BitsOf(ds[2], 6) + BitsOf(ds[3], 6)
  }

  lemma GroupBits(raw: seq<Byte>)
    requires |raw| >= 3
    ensures Bits(Sextets(B64Encode(raw)), 6) == Bits(raw[..3], 8) + Bits(Sextets(B64Encode(raw[3..])), 6)
    ensures Bits(raw, 8) == Bits(raw[..3], 8) + Bits(raw[3..], 8)
  {
    var head := EncodeGroup(raw);
    SextetsConcat(head, B64Encode(raw[3..]));
    BitsConcat(Sextets(head), Sextets(B64Encode(raw[3..])), 6);
    FourDigits(Sextets(head), 6);
    ThreeDigits(raw[..3], 8);
    assert raw == raw[..3] + raw[3..];
    BitsConcat(raw[..3], raw[3..], 8);
  }

  lemma ThreeDigits(ds: seq<nat>, width: nat)
    requires |ds| == 3
    ensures Bits(ds, width) == BitsOf(ds[0], width) + BitsOf(ds[1], width) + BitsOf(ds[2], width)
  {
    FirstTwo(ds, width);
    assert ds[2..] == [ds[2]];
    BitsOfOne(ds[2], width);
  }

  lemma FourDigits(ds: seq<nat>, width: nat)
    requires |ds| == 4
    ensures Bits(ds, width)
         == BitsOf(ds[0], width) + BitsOf(ds[1], width) + BitsOf(ds[2], width) + BitsOf(ds[3], width)
  {
    FirstTwo(ds, width);
    FirstTwo(ds[2..], width);
    assert ds[2..][2..] == [];
  }

  /** One or two bytes left over are filled up with zero bits. */
  lemma TailBits(raw: seq<Byte>) returns (pad: seq<nat>)
    requires |raw| < 3
    ensures Bits(Sextets(B64Encode(raw)), 6) == Bits(raw, 8) + pad
    ensures forall i :: 0 <= i < |pad| ==> pad[i] == 0
  {
    if |raw| == 1 {
      pad := BitsOf(0, 4);
      ZeroBits(4);
      OneLeft(raw[0]);
      assert raw == [raw[0]];
    } else if |raw| == 2 {
      pad := BitsOf(0, 2);
      ZeroBits(2);
      TwoLeft(raw[0], raw[1]);
      assert raw == [raw[0], raw[1]];
    } else {
      pad := [];
    }
  }

  lemma OneLeft(a: Byte)
    ensures Bits(Sextets(B64Encode([a])), 6) == Bits([a], 8) + BitsOf(0, 4)
  {
    assert Sextets(B64Encode([a])) == [a / 4, a % 4 * 16];
    TwoDigits(a / 4, a % 4 * 16, 6);
    BitsOfOne(a, 8);
    FirstSextet(a);
    SecondSextet(a, 0);
  }

  lemma TwoLeft(a: Byte, b: Byte)
    ensures Bits(Sextets(B64Encode([a, b])), 6) == Bits([a, b], 8) + BitsOf(0, 2)
  {
    var ds := [a / 4, a % 4 * 16 + b / 16, b % 16 * 4];
    assert Sextets(B64Encode([a, b])) == ds;
    ThreeDigits(ds, 6);
    TwoDigits(a, b, 8);
    TwoBytes(a, b);
  }

  lemma TwoBytes(a: Byte, b: Byte)
    ensures BitsOf(a / 4, 6) + BitsOf(a % 4 * 16 + b / 16, 6) + BitsOf(b % 16 * 4, 6)
         == BitsOf(a, 8) + BitsOf(b, 8) + BitsOf(0, 2)
  {
    FirstSextet(a);
    SecondSextet(a, b);
    LastOfTwo(b);
    MiddleByte(b);
    RegroupTwo(BitsOf(a / 4, 6), BitsOf(a % 4, 2), BitsOf(b / 16, 4), BitsOf(b % 16, 4), BitsOf(0, 2));
  }

  lemma LastOfTwo(b: Byte)
    ensures BitsOf(b % 16 * 4, 6) == BitsOf(b % 16, 4) + BitsOf(0, 2)
  {
    PowersOfTwo();
    BitsCut(b % 16 * 4, b % 16, 4, 0, 4, 2);
  }

  lemma RegroupTwo(a: seq<nat>, b: seq<nat>, c: seq<nat>, d: seq<nat>, e: seq<nat>)
    ensures a + (b + c) + (d + e) == (a + b) + (c + d) + e
  {
  }

  lemma TwoDigits(x: nat, y: nat, width: nat)
    ensures Bits([x, y], width) == BitsOf(x, width) + BitsOf(y, width)
  {
    FirstTwo([x, y], width);
    assert [x, y][2..] == [];
  }

  lemma {:induction false} ZeroBits(k: nat)
    ensures forall i :: 0 <= i < k ==> BitsOf(0, k)[i] == 0
  {
    if k != 0 {
      ZeroBits(k - 1);
    }
  }

  // --- the text around them --------------------------------------------------------------------------

  /** A digest in hex, whatever its case and the space around it, is printed as `ni:///sha-256;` and its base64url. */
  lemma NiIs(hex: string)
    requires IsHex64(Lower(Strip(hex)))
    ensures ToNi(hex) == Ok("ni:///sha-256;" + B64Encode(HexToBytes(Lower(Strip(hex)))))
  {
  }

  /** A hashlink is `hl:`, the base64url of the digest, and the first hint that is not blank behind a colon. */
  lemma HlIs(id: string, uris: seq<string>, k: nat)
    requires Named(id).Some? && k <= |uris|
    requires forall i :: 0 <= i < k ==> Strip(uris[i]) == []
    requires k < |uris| ==> Strip(uris[k]) != []
    ensures ToHl(id, uris)
         == Ok("hl:" + B64Encode(Named(id).value) + (if k < |uris| then ":" + Strip(uris[k]) else []))
  {
    FromNiNamed(id);
    ToHlText(id, uris);
    HintAt(uris, k);
  }

  lemma {:induction false} HintAt(uris: seq<string>, k: nat)
    requires k <= |uris| && forall i :: 0 <= i < k ==> Strip(uris[i]) == []
    requires k < |uris| ==> Strip(uris[k]) != []
    ensures FirstHint(uris) == if k < |uris| then Some(Strip(uris[k])) else None
  {
    if k > 0 {
      assert forall i :: 0 <= i < k - 1 ==> uris[1..][i] == uris[i + 1];
      HintAt(uris[1..], k - 1);
    }
  }

  /** The did:key of an Ed25519 key is `did:key:z` and base58 of the key behind the bytes ed 01; its
      verification method repeats the multibase text as a fragment. */
  lemma DidKeyIs(key: seq<Byte>)
    requires |key| == 32
    ensures PublicKeyToDid(key) == Ok("did:key:z" + Encoded([0xed, 0x01] + key))
    ensures VerificationMethod(PublicKeyToDid(key).value)
         == Ok("did:key:z" + Encoded([0xed, 0x01] + key) + "#z" + Encoded([0xed, 0x01] + key))
  {
    var text := "z" + Encoded([0xed, 0x01] + key);
    var did := PublicKeyToDid(key).value;
    assert did == "did:key:z" + Encoded([0xed, 0x01] + key) == "did:key:" + text;
    assert did[|DID_KEY|..] == text;
    assert did + "#" + text == did + "#z" + Encoded([0xed, 0x01] + key);
  }

  /** The CAS locator of a digest: the base without its trailing slashes, `/ldp/cas/` and the hex digest. */
  lemma CasUriIs(hex: string, host: string, slashes: string)
    requires IsHex64(Lower(Strip(hex)))
    requires host != [] && host[|host| - 1] != '/' && forall i :: 0 <= i < |slashes| ==> slashes[i] == '/'
    ensures CasLdpUri(hex, host + slashes) == Ok(host + "/ldp/cas/" + Lower(Strip(hex)))
  {
    SlashesStripped(host, slashes);
  }

  /** A part name is `part-` and the decimal digits of its index, padded with zeros to five. */
  lemma PartNameIs(n: nat, ds: seq<nat>)
    requires |PartName(n)| >= 5 && Spells(ds, PartName(n)[5..], "0123456789")
    ensures PartName(n)[..5] == "part-" && Value(ds, 10) == n
    ensures |ds| >= 5 && (|ds| > 5 ==> ds[0] != 0)
  {
    var padded := Padded(n);
    assert PartName(n)[5..] == DecText(padded);
    forall i | 0 <= i < |ds| ensures ds[i] == padded[i] {
      DecimalDigit(ds[i]);
      DecimalDigit(padded[i]);
    }
    assert ds == padded;
    PaddedValue(n);
  }

  lemma DecimalDigit(d: nat)
    requires d < 10
    ensures DecChar(d) == "0123456789"[d] && DecChar(d) as int == '0' as int + d
  {
  }
}
