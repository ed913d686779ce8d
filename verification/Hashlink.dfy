/** `hl:` hashlinks: a digest with an optional URL hint (cats/network/cas/hashlink.py). */
module Hashlink {
  import opened Codec
  import opened Digest
  import opened Text
  import opened Wrappers

  predicate IsHl(value: string) {
    "hl:" <= Lower(Strip(value))
  }

  /** The first hint that is not blank, trimmed. */
  function FirstHint(uris: seq<string>): Option<string> {
    if uris == [] then None
    else if Strip(uris[0]) != [] then Some(Strip(uris[0]))
    else FirstHint(uris[1..])
  }

  function HlText(b64: string, hint: Option<string>): string {
    "hl:" + b64 + (if hint.Some? then ":" + hint.value else [])
  }

  function ToHl(id: string, uris: seq<string>): Result<string> {
    if !IsNiOrDigest(id) then Err("to_hl requires ni:/hex content id")
    else
      var digest :- FromNi(id);
      Ok(HlText(B64Encode(HexToBytes(digest)), FirstHint(uris)))
  }

  /** The longest base64url prefix. */
  function B64Span(s: string): (n: nat)
    ensures n <= |s| && IsB64(s[..n]) && (n < |s| ==> !IsB64Char(s[n]))
  {
    if s == [] || !IsB64Char(s[0]) then 0
    else
      var n := 1 + B64Span(s[1..]);
      assert s[..n] == [s[0]] + s[1..][..n - 1];
      n
  }

  /** The groups of the pattern `^hl:([A-Za-z0-9_-]+)(?::(.+))?$` on a trimmed string. */
  function HlGroups(value: string): (r: Option<(string, Option<string>)>)
    ensures r.Some? ==> IsB64(r.value.0)
  {
    if !("hl:" <= value) then None
    else
      var body := value[3..];
      var n := B64Span(body);
      if n == 0 then None
      else if n == |body| then Some((body, None))
      else if body[n] == ':' && n + 1 < |body| && '\n' !in body[n + 1..]
      then Some((body[..n], Some(body[n + 1..])))
      else None
  }

  function FromHl(hl: string): Result<(string, seq<string>)> {
    match HlGroups(Strip(hl))
    case None => Err("not an hl: sha-256 hashlink")
    case Some((b64, rest)) =>
      var raw :- B64Decode(b64);
      if |raw| != 32 then Err("hl: sha-256 payload must be 32 bytes")
      else
        var ni :- ToNi(BytesToHex(raw));
        Ok((ni, if rest.Some? then [rest.value] else []))
  }

  lemma {:induction false} SpanStops(t: string, rest: string)
    requires IsB64(t)
    requires rest != [] ==> !IsB64Char(rest[0])
    ensures B64Span(t + rest) == |t|
  {
    if t == [] {
      assert t + rest == rest;
    } else {
      assert (t + rest)[1..] == t[1..] + rest;
      SpanStops(t[1..], rest);
    }
  }

  lemma GroupsOfText(b64: string, hint: Option<string>)
    requires IsB64(b64) && b64 != []
    requires hint.Some? ==> hint.value != []
    ensures HlGroups(HlText(b64, hint)) ==
      if hint.None? then Some((b64, None))
      else if '\n' in hint.value then None
      else Some((b64, hint))
  {
    var text := HlText(b64, hint);
    var tail := if hint.Some? then ":" + hint.value else [];
    assert text[3..] == b64 + tail;
    SpanStops(b64, tail);
    assert (b64 + tail)[..|b64|] == b64;
    if hint.Some? {
      assert (b64 + tail)[|b64| + 1..] == hint.value;
    } else {
      assert b64 + tail == b64;
    }
  }

  lemma TextIsTrimmed(b64: string, hint: Option<string>)
    requires IsB64(b64) && b64 != []
    requires hint.Some? ==> hint.value != [] && Trimmed(hint.value)
    ensures Strip(HlText(b64, hint)) == HlText(b64, hint)
  {
    var text := HlText(b64, hint);
    assert text[0] == 'h';
    if hint.Some? {
      assert text[|text| - 1] == hint.value[|hint.value| - 1];
    } else {
      assert text[|text| - 1] == b64[|b64| - 1];
    }
    assert Trimmed(text);
  }

  /** What `from_hl` makes of a printed hashlink. */
  lemma FromPrinted(raw: seq<Byte>, hint: Option<string>)
    requires |raw| == 32
    requires hint.Some? ==> hint.value != [] && Trimmed(hint.value)
    ensures FromHl(HlText(B64Encode(raw), hint)) ==
      if hint.None? then Ok((NiOf(raw), []))
      else if '\n' in hint.value then Err("not an hl: sha-256 hashlink")
      else Ok((NiOf(raw), [hint.value]))
  {
    B64EncodeLength(raw);
    GroupsOfText(B64Encode(raw), hint);
    TextIsTrimmed(B64Encode(raw), hint);
    B64RoundTrip(raw);
    ToNiNamed(raw);
  }

  lemma ToHlText(id: string, uris: seq<string>)
    requires Named(id).Some?
    ensures |Named(id).value| == 32
    ensures ToHl(id, uris) == Ok(HlText(B64Encode(Named(id).value), FirstHint(uris)))
  {
    FromNiNamed(id);
    BytesToHexToBytes(Named(id).value);
  }

  lemma {:induction false} FirstHintTrimmed(uris: seq<string>)
    ensures FirstHint(uris).Some? ==> FirstHint(uris).value != [] && Trimmed(FirstHint(uris).value)
  {
    if uris != [] {
      StripTrims(uris[0]);
      FirstHintTrimmed(uris[1..]);
    }
  }

  /** Reading back a printed hashlink gives the canonical id and the trimmed hint if and only if the
      trimmed hint holds no line feed; with no usable hint it always succeeds. */
  lemma HlRoundTrip(id: string, u: string)
    requires Named(id).Some?
    ensures ToHl(id, [u]).Ok? && EqualityId(id).Ok?
    ensures Strip(u) == [] ==> FromHl(ToHl(id, [u]).value) == Ok((EqualityId(id).value, []))
    ensures Strip(u) != [] ==>
      (FromHl(ToHl(id, [u]).value) == Ok((EqualityId(id).value, [Strip(u)])) <==> '\n' !in Strip(u))
    ensures Strip(u) != [] && '\n' in Strip(u) ==> FromHl(ToHl(id, [u]).value).Err?
  {
    ToHlText(id, [u]);
    FirstHintTrimmed([u]);
    FromPrinted(Named(id).value, FirstHint([u]));
    EqualityIdOfNamed(id);
  }

  /** Whatever parses as a hashlink names 32 bytes in canonical form. */
  lemma FromHlNames(hl: string)
    requires FromHl(hl).Ok?
    ensures Named(FromHl(hl).value.0).Some?
    ensures EqualityId(FromHl(hl).value.0) == Ok(FromHl(hl).value.0)
  {
    var b64 := HlGroups(Strip(hl)).value.0;
    var raw := B64Decode(b64).value;
    ToNiNamed(raw);
    NamedOfNi(raw);
    EqualityIdOfNamed(NiOf(raw));
  }
}
