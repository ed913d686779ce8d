/** Content ids: bare hex SHA-256, `ni:` URIs (section 3 of RFC 6920) and legacy CID segments
    (cats/network/cas/digest.py, and `equality_id` of cats/network/cas/content_ref.py). */
module Digest {
  import opened Codec
  import opened Text
  import opened Wrappers

  const NI_PREFIX: string := "ni:///sha-256;"

  predicate IsHex64(h: string) {
    |h| == 64 && IsHex(h)
  }

  function ValidateDigestSegment(s: string): Result<string> {
    var value := Lower(Strip(s));
    if IsHex64(value) then Ok(value) else Err("invalid digest path segment")
  }

  function ToNi(hex: string): Result<string> {
    var digest :- ValidateDigestSegment(hex);
    Ok(NI_PREFIX + B64Encode(HexToBytes(digest)))
  }

  /** The payload of a string of the form `ni:///sha-256;<base64url>`. */
  function NiPayload(value: string): Option<string> {
    if NI_PREFIX <= value && |value| > |NI_PREFIX| && IsB64(value[|NI_PREFIX|..])
    then Some(value[|NI_PREFIX|..]) else None
  }

  function FromNi(ni: string): (r: Result<string>)
    ensures r.Ok? ==> IsHex64(r.value)
  {
    var value := Strip(ni);
    if IsHex64(Lower(value)) then Ok(Lower(value))
    else match NiPayload(value)
      case None => Err("not a sha-256 ni: URI or hex digest")
      case Some(b64) =>
        var raw :- B64Decode(b64);
        if |raw| != 32 then Err("ni: sha-256 payload must be 32 bytes") else Ok(BytesToHex(raw))
  }

  /** Shape only: the length of an `ni:` payload is not looked at. */
  predicate IsNiOrDigest(id: string) {
    IsHex64(Lower(Strip(id))) || NiPayload(Strip(id)).Some?
  }

  predicate IsCidSegment(s: string) {
    s != [] && forall i :: 0 <= i < |s| ==> IsAlnum(s[i])
  }

  function ContentIdFsKey(id: string): Result<string> {
    var value := Strip(id);
    if IsNiOrDigest(value) then FromNi(value)
    else if IsCidSegment(value) then Ok(value)
    else Err("invalid content_id path segment")
  }

  function EqualityId(id: string): Result<string> {
    var value := Strip(id);
    if IsNiOrDigest(value) then var hex :- FromNi(value); ToNi(hex)
    else Ok(value)
  }

  /** `_normalize_content_id` of the registry: the equality id, for ids that also make a file name. */
  function NormalizeContentId(id: string): Result<string> {
    var _ :- ContentIdFsKey(id);
    if IsNiOrDigest(id) then var hex :- FromNi(id); ToNi(hex)
    else Ok(Strip(id))
  }

  /** The 32 bytes an id names, read off its spelling. */
  ghost function Named(id: string): Option<seq<Byte>> {
    var value := Strip(id);
    if IsHex64(Lower(value)) then Some(HexToBytes(Lower(value)))
    else match NiPayload(value)
      case Some(b64) =>
        if |b64| == 43 && B64Decode(b64).Ok? then Some(B64Decode(b64).value) else None
      case None => None
  }

  lemma LowerOfHex(h: string)
    requires IsHex(h)
    ensures Lower(h) == h
  {
  }

  lemma HexIsTrimmed(h: string)
    requires IsHex(h)
    ensures Trimmed(h) && Strip(h) == h
  {
  }

  /** The canonical `ni:` of 32 bytes. */
  ghost function NiOf(raw: seq<Byte>): string {
    NI_PREFIX + B64Encode(raw)
  }

  lemma NiOfShape(raw: seq<Byte>)
    requires |raw| == 32
    ensures var ni := NiOf(raw);
      Strip(ni) == ni && |ni| == 57 && !IsHex64(Lower(ni)) && NiPayload(ni) == Some(B64Encode(raw))
  {
    B64EncodeLength(raw);
    var ni := NiOf(raw);
    assert ni[|NI_PREFIX|..] == B64Encode(raw);
    assert Trimmed(ni);
  }

  lemma FromNiNamed(id: string)
    ensures FromNi(id).Ok? <==> Named(id).Some?
    ensures Named(id).Some? ==> |Named(id).value| == 32 && FromNi(id).value == BytesToHex(Named(id).value)
  {
    var value := Strip(id);
    if IsHex64(Lower(value)) {
      HexToBytesToHex(Lower(value));
    } else if NiPayload(value).Some? {
      B64DecodeLength(NiPayload(value).value);
    }
  }

  lemma ToNiNamed(raw: seq<Byte>)
    requires |raw| == 32
    ensures ToNi(BytesToHex(raw)) == Ok(NiOf(raw))
  {
    var h := BytesToHex(raw);
    HexIsTrimmed(h);
    LowerOfHex(h);
    BytesToHexToBytes(raw);
  }

  /** Printing and reading `ni:` are inverse on every 64-digit hex string. */
  lemma NiRoundTrip(h: string)
    requires IsHex64(h)
    ensures ToNi(h).Ok? && IsNiOrDigest(ToNi(h).value) && FromNi(ToNi(h).value) == Ok(h)
  {
    var raw := HexToBytes(h);
    HexToBytesToHex(h);
    ToNiNamed(raw);
    NiOfShape(raw);
    B64RoundTrip(raw);
  }

  lemma StripTwice(id: string)
    ensures Strip(Strip(id)) == Strip(id)
    ensures FromNi(Strip(id)) == FromNi(id) && IsNiOrDigest(Strip(id)) == IsNiOrDigest(id)
    ensures Named(Strip(id)) == Named(id)
  {
    StripTrims(id);
  }

  /** The equality id of an id that names bytes is the canonical `ni:` of those bytes. */
  lemma EqualityIdOfNamed(id: string)
    requires Named(id).Some?
    ensures EqualityId(id) == Ok(NiOf(Named(id).value))
  {
    StripTwice(id);
    FromNiNamed(id);
    ToNiNamed(Named(id).value);
  }

  lemma NamedOfNi(raw: seq<Byte>)
    requires |raw| == 32
    ensures Named(NiOf(raw)) == Some(raw)
  {
    NiOfShape(raw);
    B64RoundTrip(raw);
    B64EncodeLength(raw);
  }

  /** Two ids that name digests, however spelled, have one equality id exactly when they name the same 32 bytes. */
  lemma EqualityIdIff(a: string, b: string)
    requires Named(a).Some? && Named(b).Some?
    ensures EqualityId(a).Ok? && EqualityId(b).Ok?
    ensures EqualityId(a) == EqualityId(b) <==> Named(a) == Named(b)
  {
    EqualityIdOfNamed(a);
    EqualityIdOfNamed(b);
    FromNiNamed(a);
    FromNiNamed(b);
    NamedOfNi(Named(a).value);
    NamedOfNi(Named(b).value);
  }

  lemma EqualityIdIdempotent(id: string)
    requires EqualityId(id).Ok?
    ensures EqualityId(EqualityId(id).value) == EqualityId(id)
  {
    StripTwice(id);
    FromNiNamed(id);
    if Named(id).Some? {
      var raw := Named(id).value;
      EqualityIdOfNamed(id);
      NamedOfNi(raw);
      EqualityIdOfNamed(NiOf(raw));
    }
  }

  /** The file-name key identifies the same ids as the canonical id: neither merges nor splits. */
  lemma FsKeyAgreesWithNormalForm(a: string, b: string)
    ensures ContentIdFsKey(a).Ok? <==> NormalizeContentId(a).Ok?
    ensures ContentIdFsKey(a).Ok? && ContentIdFsKey(b).Ok? ==>
      (ContentIdFsKey(a) == ContentIdFsKey(b) <==> NormalizeContentId(a) == NormalizeContentId(b))
  {
    StripTwice(a);
    StripTwice(b);
    KeyForm(a);
    KeyForm(b);
  }

  /** The two shapes of a key and of the canonical id that goes with it. */
  lemma KeyForm(id: string)
    ensures ContentIdFsKey(id).Ok? ==> NormalizeContentId(id).Ok?
    ensures ContentIdFsKey(id).Ok? && IsNiOrDigest(id) ==>
      IsHex64(ContentIdFsKey(id).value) && NormalizeContentId(id) == ToNi(ContentIdFsKey(id).value)
      && FromNi(NormalizeContentId(id).value) == ContentIdFsKey(id)
    ensures ContentIdFsKey(id).Ok? && !IsNiOrDigest(id) ==>
      NormalizeContentId(id) == ContentIdFsKey(id)
      && IsCidSegment(ContentIdFsKey(id).value) && !IsHex64(ContentIdFsKey(id).value)
  {
    StripTwice(id);
    FromNiNamed(id);
    if ContentIdFsKey(id).Ok? {
      if IsNiOrDigest(id) {
        NiRoundTrip(ContentIdFsKey(id).value);
      } else {
        var value := Strip(id);
        if IsHex64(value) { LowerOfHex(value); }
      }
    }
  }

  /** The normal form is a fixed point and has the same key. */
  lemma NormalFormKey(id: string)
    requires NormalizeContentId(id).Ok?
    ensures var n := NormalizeContentId(id).value;
      ContentIdFsKey(n) == ContentIdFsKey(id) && NormalizeContentId(n) == Ok(n)
  {
    StripTwice(id);
    KeyForm(id);
    if IsNiOrDigest(id) {
      NiRoundTrip(ContentIdFsKey(id).value);
      ToNiTrimmed(ContentIdFsKey(id).value);
    }
  }

  lemma ToNiTrimmed(h: string)
    requires IsHex64(h)
    ensures ToNi(h) == Ok(NiOf(HexToBytes(h))) && Strip(NiOf(HexToBytes(h))) == NiOf(HexToBytes(h))
  {
    HexToBytesToHex(h);
    ToNiNamed(HexToBytes(h));
    NiOfShape(HexToBytes(h));
  }

  /** A canonical id is trimmed and not blank. */
  lemma NormalFormTrimmed(id: string)
    requires NormalizeContentId(id).Ok?
    ensures var n := NormalizeContentId(id).value; n != [] && Strip(n) == n
  {
    KeyForm(id);
    FsKeyAgreesWithNormalForm(id, id);
    StripTwice(id);
    if IsNiOrDigest(id) {
      ToNiTrimmed(ContentIdFsKey(id).value);
    }
  }
}
