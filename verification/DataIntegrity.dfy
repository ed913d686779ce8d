/** `eddsa-jcs-2022` proofs (cats/network/feedback/data_integrity.py; section 3.3 of W3C Data Integrity EdDSA
    Cryptosuites v1.0). Documents are taken up to member order, as RFC 8785 canonicalizes them. */
module DataIntegrity {
  import opened DidKey
  import opened Multibase
  import opened Text
  import opened Wrappers

  datatype Value =
    | Null
    | Bool(b: bool)
    | Num(n: int)
    | Str(s: string)
    | List(items: seq<Value>)
    | Dict(members: Document)

  type Document = map<string, Value>

  type Bytes = seq<Byte>

  /** The primitives the source imports: RFC 8785, SHA-256 and Ed25519. */
  datatype Suite = Suite(
    jcs: Document -> Bytes,
    sha: Bytes -> Bytes,
    publicKey: Bytes -> Bytes,
    sign: (Bytes, Bytes) -> Bytes,
    verify: (Bytes, Bytes, Bytes) -> bool)

  const CRYPTOSUITE: string := "eddsa-jcs-2022"
  const PROOF_TYPE: string := "DataIntegrityProof"
  const CONTEXT: string := "@context"

  function ContextList(ctx: Value): seq<Value> {
    match ctx
    case Null => []
    case List(items) => items
    case _ => [ctx]
  }

  function ContextOf(d: Document): Value {
    if CONTEXT in d then d[CONTEXT] else Null
  }

  /** Python equality of JSON values: booleans are numbers. */
  predicate Same(a: Value, b: Value) {
    match a
    case Null => b.Null?
    case Bool(x) => b == a || b == Num(if x then 1 else 0)
    case Num(x) => b == a || (b.Bool? && x == if b.b then 1 else 0)
    case Str(_) => b == a
    case List(items) => b.List? && |items| == |b.items| && forall i :: 0 <= i < |items| ==> Same(items[i], b.items[i])
    case Dict(members) =>
      b.Dict? && members.Keys == b.members.Keys && forall k :: k in members ==> Same(members[k], b.members[k])
  }

  /** `doc[:len(proof)] == proof` on the contexts read as lists. */
  predicate ContextStartsWith(documentCtx: Value, proofCtx: Value) {
    var doc, proof := ContextList(documentCtx), ContextList(proofCtx);
    |proof| <= |doc| && forall i :: 0 <= i < |proof| ==> Same(doc[i], proof[i])
  }

  lemma {:induction false} SameItself(a: Value)
    ensures Same(a, a)
  {
    match a
    case List(items) =>
      forall i | 0 <= i < |items| ensures Same(items[i], items[i]) {
        SameItself(items[i]);
      }
    case Dict(members) =>
      forall k | k in members ensures Same(members[k], members[k]) {
        SameItself(members[k]);
      }
    case _ =>
  }

  lemma StartsWithItself(ctx: Value)
    ensures ContextStartsWith(ctx, ctx)
  {
    forall i | 0 <= i < |ContextList(ctx)| ensures Same(ContextList(ctx)[i], ContextList(ctx)[i]) {
      SameItself(ContextList(ctx)[i]);
    }
  }

  function HashData(suite: Suite, options: Document, unsecured: Document): Bytes {
    suite.sha(suite.jcs(options)) + suite.sha(suite.jcs(unsecured))
  }

  function ProofOptions(unsecured: Document, vm: string, created: string): Document {
    var options := map[
      "type" := Str(PROOF_TYPE),
      "cryptosuite" := Str(CRYPTOSUITE),
      "created" := Str(created),
      "verificationMethod" := Str(vm),
      "proofPurpose" := Str("assertionMethod")];
    if CONTEXT in unsecured then options[CONTEXT := unsecured[CONTEXT]] else options
  }

  function SignDocument(suite: Suite, document: Document, secret: Bytes, vm: string, created: string): Document {
    var unsecured := document - {"proof"};
    var options := ProofOptions(unsecured, vm, created);
    var signature := suite.sign(secret, HashData(suite, options, unsecured));
    unsecured["proof" := Dict(options["proofValue" := Str(ZEncoded(signature))])]
  }

  /** The document that is hashed: without its proof, and with the proof's own `@context` when it has one. */
  function Restored(document: Document, options: Document): Document {
    var unsecured := document - {"proof"};
    if CONTEXT in options then unsecured[CONTEXT := options[CONTEXT]] else unsecured
  }

  function VerifyDocument(suite: Suite, document: Document): Result<()> {
    if "proof" !in document then Err("Document has no proof")
    else if !document["proof"].Dict? then Err("proof must be an object")
    else
      var proof := document["proof"].members;
      if "type" !in proof || proof["type"] != Str(PROOF_TYPE) then Err("Unsupported proof type")
      else if "cryptosuite" !in proof || proof["cryptosuite"] != Str(CRYPTOSUITE) then Err("Unsupported cryptosuite")
      else if "proofValue" !in proof || !proof["proofValue"].Str? || proof["proofValue"].s == [] then
        Err("proof.proofValue missing")
      else
        var options := proof - {"proofValue"};
        if CONTEXT in options && !ContextStartsWith(ContextOf(document - {"proof"}), options[CONTEXT]) then
          Err("Document @context does not start with proof @context")
        else
          var signature :- ZDecoded(proof["proofValue"].s);
          if "verificationMethod" !in proof || !proof["verificationMethod"].Str? then Err("verificationMethod")
          else
            var key :- PublicKeyFromVm(proof["verificationMethod"].s);
            if suite.verify(key, signature, HashData(suite, options, Restored(document, options)))
            then Ok(()) else Err("Data Integrity proof verification failed")
  }

  // --- hypotheses ------------------------------------------------------------------------------------

  /** A signature made with the key verifies, under its public key, for the signed message only. */
  ghost predicate IdealKey(suite: Suite, secret: Bytes) {
    && |suite.publicKey(secret)| == 32
    && forall m, m' :: suite.verify(suite.publicKey(secret), suite.sign(secret, m), m') <==> m == m'
  }

  ghost predicate Canonical(suite: Suite) {
    && (forall d, e :: suite.jcs(d) == suite.jcs(e) ==> d == e)
    && (forall b :: |suite.sha(b)| == 32)
  }

  /** Nothing else hashes to the digest of this document. */
  ghost predicate Unforged(suite: Suite, d: Document) {
    forall b :: suite.sha(b) == suite.sha(suite.jcs(d)) ==> b == suite.jcs(d)
  }

  /** The verificationMethod of the node's own did:key. */
  function OwnMethod(suite: Suite, secret: Bytes): string {
    match PublicKeyToDid(suite.publicKey(secret))
    case Err(_) => ""
    case Ok(did) => match VerificationMethod(did) case Err(_) => "" case Ok(vm) => vm
  }

  lemma OwnMethodResolves(suite: Suite, secret: Bytes)
    requires IdealKey(suite, secret)
    ensures PublicKeyFromVm(OwnMethod(suite, secret)) == Ok(suite.publicKey(secret))
  {
    KeySurvives(suite.publicKey(secret));
  }

  // --- acceptance ------------------------------------------------------------------------------------

  /** Equal to the signed document, except for the `@context`: read as a list, it starts with items that equal the
      signed ones in Python's sense and may go on after them. */
  ghost predicate SameButContext(d: Document, signed: Document) {
    var rest, was := d - {"proof"}, signed - {"proof"};
    if CONTEXT in was
    then rest - {CONTEXT} == was - {CONTEXT} && ContextStartsWith(ContextOf(rest), was[CONTEXT])
    else rest == was
  }

  /** `d` carries a proof object with the signature and verificationMethod of `signed`. */
  ghost predicate SameSignature(d: Document, signed: Document)
    requires "proof" in signed && signed["proof"].Dict?
  {
    && "proof" in d && d["proof"].Dict?
    && var p, q := d["proof"].members, signed["proof"].members;
       forall k :: k in {"proofValue", "verificationMethod"} ==> k in p && k in q && p[k] == q[k]
  }

  lemma HashDataSplits(suite: Suite, o: Document, u: Document, o': Document, u': Document)
    requires Canonical(suite) && Unforged(suite, o) && Unforged(suite, u)
    requires HashData(suite, o, u) == HashData(suite, o', u')
    ensures o == o' && u == u'
  {
    var h, h' := HashData(suite, o, u), HashData(suite, o', u');
    assert h[..32] == suite.sha(suite.jcs(o)) && h'[..32] == suite.sha(suite.jcs(o'));
    assert h[32..] == suite.sha(suite.jcs(u)) && h'[32..] == suite.sha(suite.jcs(u'));
  }

  lemma RestoredIff(d: Document, signed: Document, options: Document)
    requires var was := signed - {"proof"};
      if CONTEXT in was then CONTEXT in options && options[CONTEXT] == was[CONTEXT] else CONTEXT !in options
    ensures SameButContext(d, signed) <==>
      Restored(d, options) == signed - {"proof"}
      && (CONTEXT in options ==> ContextStartsWith(ContextOf(d - {"proof"}), options[CONTEXT]))
  {
    var rest, was := d - {"proof"}, signed - {"proof"};
    if CONTEXT in was {
      var filled := rest[CONTEXT := was[CONTEXT]];
      if rest - {CONTEXT} == was - {CONTEXT} {
        forall k ensures k in filled <==> k in was {
          assert k != CONTEXT ==> (k in rest - {CONTEXT} <==> k in rest) && (k in was - {CONTEXT} <==> k in was);
        }
        forall k | k in was ensures filled[k] == was[k] {
          if k != CONTEXT {
            assert (rest - {CONTEXT})[k] == rest[k] && (was - {CONTEXT})[k] == was[k];
          }
        }
        assert filled == was;
      }
      if filled == was {
        assert rest - {CONTEXT} == filled - {CONTEXT};
      }
    }
  }

  /** What `SignDocument` leaves: the options, the signature over them, and the document. */
  lemma SignedShape(suite: Suite, document: Document, secret: Bytes, vm: string, created: string)
    ensures var unsecured := document - {"proof"};
      var options := ProofOptions(unsecured, vm, created);
      var signed := SignDocument(suite, document, secret, vm, created);
      && signed - {"proof"} == unsecured
      && "proof" in signed && signed["proof"].Dict?
      && signed["proof"].members - {"proofValue"} == options
      && "proofValue" in signed["proof"].members
      && signed["proof"].members["proofValue"] == Str(ZEncoded(suite.sign(secret, HashData(suite, options, unsecured))))
      && "verificationMethod" in signed["proof"].members
      && signed["proof"].members["verificationMethod"] == Str(vm)
  {
  }

  /** What is signed and what the proof says, in full: the signature is over the digest of the proof's other members
      followed by the digest of the document without its proof. */
  lemma SignedIs(suite: Suite, document: Document, secret: Bytes, vm: string, created: string)
    ensures var signed := SignDocument(suite, document, secret, vm, created);
      && signed - {"proof"} == document - {"proof"}
      && "proof" in signed && signed["proof"].Dict?
      && var p := signed["proof"].members;
         && p.Keys == {"type", "cryptosuite", "created", "verificationMethod", "proofPurpose", "proofValue"}
                      + (if "@context" in document then {"@context"} else {})
         && p["type"] == Str("DataIntegrityProof") && p["cryptosuite"] == Str("eddsa-jcs-2022")
         && p["created"] == Str(created) && p["verificationMethod"] == Str(vm)
         && p["proofPurpose"] == Str("assertionMethod")
         && ("@context" in document ==> p["@context"] == document["@context"])
         && p["proofValue"] == Str(ZEncoded(suite.sign(
              secret, suite.sha(suite.jcs(p - {"proofValue"})) + suite.sha(suite.jcs(document - {"proof"})))))
  {
    SignedShape(suite, document, secret, vm, created);
    var options := ProofOptions(document - {"proof"}, vm, created);
    var p := SignDocument(suite, document, secret, vm, created)["proof"].members;
    assert p == options["proofValue" := p["proofValue"]];
    OptionsAre(document - {"proof"}, vm, created);
    assert "@context" in document <==> "@context" in document - {"proof"};
  }

  lemma OptionsAre(unsecured: Document, vm: string, created: string)
    ensures var o := ProofOptions(unsecured, vm, created);
      && o.Keys == {"type", "cryptosuite", "created", "verificationMethod", "proofPurpose"}
                   + (if "@context" in unsecured then {"@context"} else {})
      && o["type"] == Str("DataIntegrityProof") && o["cryptosuite"] == Str("eddsa-jcs-2022")
      && o["created"] == Str(created) && o["verificationMethod"] == Str(vm)
      && o["proofPurpose"] == Str("assertionMethod")
      && ("@context" in unsecured ==> o["@context"] == unsecured["@context"])
  {
    assert "type" != "cryptosuite" && "type" != "created" && "type" != "verificationMethod" && "type" != "proofPurpose";
    assert "cryptosuite" != "created" && "cryptosuite" != "verificationMethod" && "cryptosuite" != "proofPurpose";
    assert "created" != "verificationMethod" && "created" != "proofPurpose";
    assert "verificationMethod" != "proofPurpose" && "@context"[0] == '@';
    assert |"verificationMethod"| == 18;
  }

  /** Verification of any document that carries the signature comes down to equal hash input. */
  lemma VerifyIsHashEquality(suite: Suite, document: Document, secret: Bytes, created: string, d: Document)
    requires IdealKey(suite, secret)
    requires SameSignature(d, SignDocument(suite, document, secret, OwnMethod(suite, secret), created))
    ensures var vm := OwnMethod(suite, secret);
      var unsecured := document - {"proof"};
      var options := ProofOptions(unsecured, vm, created);
      var mine := d["proof"].members - {"proofValue"};
      VerifyDocument(suite, d).Ok? <==>
        && "type" in mine && mine["type"] == Str(PROOF_TYPE)
        && "cryptosuite" in mine && mine["cryptosuite"] == Str(CRYPTOSUITE)
        && (CONTEXT in mine ==> ContextStartsWith(ContextOf(d - {"proof"}), mine[CONTEXT]))
        && HashData(suite, options, unsecured) == HashData(suite, mine, Restored(d, mine))
  {
    var vm := OwnMethod(suite, secret);
    var unsecured := document - {"proof"};
    var options := ProofOptions(unsecured, vm, created);
    var signed := SignDocument(suite, document, secret, vm, created);
    SignedShape(suite, document, secret, vm, created);
    OwnMethodResolves(suite, secret);
    var signature := suite.sign(secret, HashData(suite, options, unsecured));
    ZRoundTrip(signature);
    var proof := d["proof"].members;
    assert "proofValue" in proof && proof["proofValue"] == Str(ZEncoded(signature));
    assert "verificationMethod" in proof && proof["verificationMethod"] == Str(vm);
    var mine := proof - {"proofValue"};
    assert forall k :: k != "proofValue" ==> (k in mine <==> k in proof) && (k in mine ==> mine[k] == proof[k]);
  }

  /** The exact acceptance set: a document with this signature verifies if and only if its proof is the one
      made at signing and the rest equals the signed document up to such a `@context`. */
  lemma AcceptanceSet(suite: Suite, document: Document, secret: Bytes, created: string, d: Document)
    requires IdealKey(suite, secret) && Canonical(suite)
    requires Unforged(suite, document - {"proof"})
    requires Unforged(suite, ProofOptions(document - {"proof"}, OwnMethod(suite, secret), created))
    requires SameSignature(d, SignDocument(suite, document, secret, OwnMethod(suite, secret), created))
    ensures var signed := SignDocument(suite, document, secret, OwnMethod(suite, secret), created);
      VerifyDocument(suite, d).Ok? <==> d["proof"] == signed["proof"] && SameButContext(d, signed)
  {
    var vm := OwnMethod(suite, secret);
    var unsecured := document - {"proof"};
    var options := ProofOptions(unsecured, vm, created);
    var signed := SignDocument(suite, document, secret, vm, created);
    SignedShape(suite, document, secret, vm, created);
    VerifyIsHashEquality(suite, document, secret, created, d);
    var proof, sproof := d["proof"].members, signed["proof"].members;
    var mine := proof - {"proofValue"};
    if VerifyDocument(suite, d).Ok? {
      HashDataSplits(suite, options, unsecured, mine, Restored(d, mine));
    }
    ProofFromParts(proof, sproof, "proofValue");
    RestoredIff(d, signed, options);
  }

  lemma ProofFromParts(p: Document, q: Document, k: string)
    requires k in p && k in q && p[k] == q[k]
    ensures p - {k} == q - {k} <==> p == q
  {
    if p - {k} == q - {k} {
      assert p == (p - {k})[k := p[k]] && q == (q - {k})[k := q[k]];
    }
  }

  /** Every signed document verifies, whatever it held before, an older proof included. */
  lemma SignedVerifies(suite: Suite, document: Document, secret: Bytes, created: string)
    requires IdealKey(suite, secret)
    ensures VerifyDocument(suite, SignDocument(suite, document, secret, OwnMethod(suite, secret), created)).Ok?
  {
    var vm := OwnMethod(suite, secret);
    var signed := SignDocument(suite, document, secret, vm, created);
    SignedShape(suite, document, secret, vm, created);
    VerifyIsHashEquality(suite, document, secret, created, signed);
    if CONTEXT in document - {"proof"} {
      StartsWithItself((document - {"proof"})[CONTEXT]);
    }
    RestoredIff(signed, signed, ProofOptions(document - {"proof"}, vm, created));
  }

  /** A context with one flag, and a document with nothing else in it. */
  function Flagged(flag: Value): Document {
    map[CONTEXT := List([Dict(map["@protected" := flag])])]
  }

  /** The relation is wider than equality: a document signed with `true` in its context still verifies with `1` there,
      though it is another document. */
  lemma NumberForBoolean(suite: Suite, secret: Bytes, created: string)
    requires IdealKey(suite, secret)
    ensures var signed := SignDocument(suite, Flagged(Bool(true)), secret, OwnMethod(suite, secret), created);
      var changed := Flagged(Num(1))["proof" := signed["proof"]];
      VerifyDocument(suite, changed).Ok? && changed != signed
  {
    var vm := OwnMethod(suite, secret);
    var document, other := Flagged(Bool(true)), Flagged(Num(1));
    FlagsAgree();
    ChangedContext(suite, document, other, secret, created);
    assert other[CONTEXT] != document[CONTEXT] by {
      assert other[CONTEXT].items[0].members["@protected"] == Num(1);
      assert document[CONTEXT].items[0].members["@protected"] == Bool(true);
    }
    SignedShape(suite, document, secret, vm, created);
  }

  /** A document that differs from a signed one in such a context only still verifies. */
  lemma ChangedContext(suite: Suite, document: Document, other: Document, secret: Bytes, created: string)
    requires IdealKey(suite, secret) && "proof" !in document && "proof" !in other
    requires CONTEXT in document && CONTEXT in other && document == other[CONTEXT := document[CONTEXT]]
    requires ContextStartsWith(other[CONTEXT], document[CONTEXT])
    ensures var signed := SignDocument(suite, document, secret, OwnMethod(suite, secret), created);
      VerifyDocument(suite, other["proof" := signed["proof"]]).Ok?
  {
    var vm := OwnMethod(suite, secret);
    var signed := SignDocument(suite, document, secret, vm, created);
    var changed := other["proof" := signed["proof"]];
    assert document - {"proof"} == document && changed - {"proof"} == other;
    SignedShape(suite, document, secret, vm, created);
    var options := ProofOptions(document, vm, created);
    assert CONTEXT in options && options[CONTEXT] == document[CONTEXT];
    assert Restored(changed, options) == document;
    VerifyIsHashEquality(suite, document, secret, created, changed);
  }

  lemma FlagsAgree()
    ensures ContextStartsWith(Flagged(Num(1))[CONTEXT], Flagged(Bool(true))[CONTEXT])
  {
    var a, b := Dict(map["@protected" := Num(1)]), Dict(map["@protected" := Bool(true)]);
    assert Same(a, b);
  }
}
