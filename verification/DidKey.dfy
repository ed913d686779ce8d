/** did:key attribution of Ed25519 keys (cats/network/identity/node_did.py and the resolver in
    cats/network/feedback/data_integrity.py). */
module DidKey {
  import opened Multibase
  import opened Text
  import opened Wrappers

  const ED25519_PUB_PREFIX: seq<Byte> := [0xed, 0x01]
  const DID_KEY: string := "did:key:"

  function PublicKeyToDid(key: seq<Byte>): Result<string> {
    if |key| != 32 then Err("Ed25519 public key must be 32 bytes")
    else Ok(DID_KEY + ZEncoded(ED25519_PUB_PREFIX + key))
  }

  function VerificationMethod(did: string): Result<string> {
    if !(DID_KEY <= did) then Err("Expected did:key DID")
    else Ok(did + "#" + did[|DID_KEY|..])
  }

  /** `text.partition(c)`: what precedes the first `c`, and what follows it. */
  function Partition(s: string, c: char): (r: (string, string))
    ensures c !in r.0
    ensures if c in s then s == r.0 + [c] + r.1 else r == (s, [])
  {
    if s == [] then ([], [])
    else if s[0] == c then ([], s[1..])
    else
      assert s == [s[0]] + s[1..];
      var (head, tail) := Partition(s[1..], c);
      ([s[0]] + head, tail)
  }

  /** The multibase part a verificationMethod names: its fragment when there is one. */
  function MultibaseOf(vm: string): Result<string> {
    var (didPart, fragment) := Partition(vm, '#');
    if !(DID_KEY <= didPart) then Err("Unsupported verificationMethod (need did:key)")
    else Ok(if fragment != [] then fragment else didPart[|DID_KEY|..])
  }

  /** `_public_key_from_did_key_vm`. */
  function PublicKeyFromVm(vm: string): Result<seq<Byte>> {
    var multibase :- MultibaseOf(vm);
    if !("z" <= multibase) then Err("verificationMethod fragment must be multibase z")
    else
      var raw :- ZDecoded(multibase);
      if !(ED25519_PUB_PREFIX <= raw) then Err("verificationMethod is not ed25519-pub multicodec")
      else if |raw| != 34 then Err("Ed25519 public key must be 32 bytes")
      else Ok(raw[2..])
  }

  lemma {:induction false} PartitionAt(head: string, c: char, tail: string)
    requires c !in head
    ensures Partition(head + [c] + tail, c) == (head, tail)
  {
    var s := head + [c] + tail;
    if head == [] {
      assert s[1..] == tail;
    } else {
      assert s[1..] == head[1..] + [c] + tail;
      PartitionAt(head[1..], c, tail);
      assert head == [head[0]] + head[1..];
    }
  }

  lemma NoHash(raw: seq<Byte>)
    ensures '#' !in DID_KEY + ZEncoded(raw)
  {
    var did := DID_KEY + ZEncoded(raw);
    assert forall i :: 0 <= i < |ZEncoded(raw)| ==> ZEncoded(raw)[i] != '#';
    assert forall i :: 0 <= i < |DID_KEY| ==> DID_KEY[i] != '#';
  }

  /** Every 32-byte key survives did:key, verificationMethod and back. */
  lemma KeySurvives(key: seq<Byte>)
    requires |key| == 32
    ensures var did := PublicKeyToDid(key);
      && did.Ok?
      && VerificationMethod(did.value).Ok?
      && PublicKeyFromVm(VerificationMethod(did.value).value) == Ok(key)
  {
    var raw := ED25519_PUB_PREFIX + key;
    var did := PublicKeyToDid(key).value;
    assert did[|DID_KEY|..] == ZEncoded(raw);
    NoHash(raw);
    PartitionAt(did, '#', ZEncoded(raw));
    ZRoundTrip(raw);
    assert raw[2..] == key;
  }

  /** A key has one spelling: whatever resolves to it carries exactly the multibase text of its did:key. */
  lemma OneSpellingPerKey(vm: string, key: seq<Byte>)
    requires PublicKeyFromVm(vm) == Ok(key)
    ensures |key| == 32
    ensures PublicKeyToDid(key) == Ok(DID_KEY + MultibaseOf(vm).value)
  {
    var multibase := MultibaseOf(vm).value;
    var raw := ZDecoded(multibase).value;
    EncodeDecode(multibase[1..]);
    assert raw == ED25519_PUB_PREFIX + key;
    assert multibase == "z" + multibase[1..];
  }
}
