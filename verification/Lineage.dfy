/** What every link step keeps, and what chains of runs and links keep
    (cats/network/order.py, with the lineage assertions of cats/network/registry/lineage.py). */
module Lineage {
  import opened AddressStore
  import opened Cas
  import Codec
  import opened ContentRef
  import opened Digest
  import opened Hashlink
  import opened InspectTree
  import opened Json
  import opened Manifest
  import opened Order
  import opened Text
  import opened Wrappers

  // --- writing references ----------------------------------------------------------------------------

  /** A written reference reads back on any node, whatever its locator index says. */
  lemma WithReads(n: Node, d: Dict, stem: string, id: string, loc: Locators)
    requires Ready(n) && Stable(id)
    ensures With(n, d, stem, id).Ok?
    ensures RefId(With(n, d, stem, id).value, stem, loc) == Ok(Some(id))
  {
    StableRoundTrip(d, stem, id, n.base, loc);
  }

  lemma WithKeeps(n: Node, d: Dict, stem: string, id: string, other: string, loc: Locators)
    requires Plain(stem) && Plain(other) && stem != other && With(n, d, stem, id).Ok?
    ensures RefId(With(n, d, stem, id).value, other, loc) == RefId(d, other, loc)
    ensures RefUri(With(n, d, stem, id).value, other) == RefUri(d, other)
  {
    OtherStemsUnchanged(d, stem, id, n.base, None, other, loc);
  }

  /** Only the id a spelling stands for is written. */
  lemma WithTarget(n: Node, d: Dict, stem: string, id: string, target: string)
    requires RefTarget(id) == Ok(target) && Stable(target)
    ensures With(n, d, stem, id) == With(n, d, stem, target)
  {
  }

  lemma WithFrame(n: Node, d: Dict, stem: string, id: string, k: string)
    requires With(n, d, stem, id).Ok? && k != UriField(stem) && k != CidField(stem)
    ensures Get(With(n, d, stem, id).value, k) == Get(d, k)
  {
    SetRefFrame(d, stem, id, n.base, None, k);
  }

  /** `k` does not end like a reference field. */
  ghost predicate NoRefField(k: string) {
    !EndsWith(k, "uri") && !EndsWith(k, "_cid") && k != "content_id"
  }

  lemma SetOtherKeeps(d: Dict, k: string, v: Json, stem: string, locators: Locators)
    requires NoRefField(k)
    ensures RefId(Set(d, k, v), stem, locators) == RefId(d, stem, locators)
      && RefUri(Set(d, k, v), stem) == RefUri(d, stem)
  {
    FieldEnds(stem);
    GetSet(d, k, v, UriField(stem));
    GetSet(d, k, v, CidField(stem));
    GetSet(d, k, v, "content_id");
    RefIdOfOtherFields(d, Set(d, k, v), stem, locators);
  }

  lemma DelOtherKeeps(d: Dict, k: string, stem: string, locators: Locators)
    requires k != UriField(stem) && k != CidField(stem) && k != "content_id"
    ensures RefId(Del(d, k), stem, locators) == RefId(d, stem, locators) && RefUri(Del(d, k), stem) == RefUri(d, stem)
  {
    GetDel(d, k, UriField(stem));
    GetDel(d, k, CidField(stem));
    GetDel(d, k, "content_id");
    RefIdOfOtherFields(d, Del(d, k), stem, locators);
  }

  /** The bag never hides a reference. */
  lemma FlatHidesNothing(d: Dict, stem: string, m: Mesh)
    ensures RefId(Del(d, FLAT), stem, m.locators) == RefId(d, stem, m.locators)
    ensures RefKey(Del(d, FLAT), stem, m) == RefKey(d, stem, m)
  {
    FieldEnds(stem);
    assert FLAT[3] == 't' && |FLAT| == 4;
    DelOtherKeeps(d, FLAT, stem, m.locators);
  }

  /** The id of stored bytes. */
  lemma BytesIdStable(n: Node, data: seq<Byte>)
    requires IsSha(n.sha)
    ensures Stable(NiText(n.sha, data)) && IsNiOrDigest(NiText(n.sha, data))
  {
    NiTextNames(n.sha, data);
    FromNiNamed(NiText(n.sha, data));
    ToNiTrimmed(n.sha(data));
    EqualityIdOfNi(n.sha(data));
  }

  lemma JsonIdStable(n: Node, j: Json)
    requires IsSha(n.sha)
    ensures Stable(JsonId(n, j)) && IsNiOrDigest(JsonId(n, j))
  {
    BytesIdStable(n, n.dumps(j));
  }

  lemma EqualityIdOfNi(h: string)
    requires IsHex64(h)
    ensures ToNi(h).Ok? && EqualityId(ToNi(h).value) == ToNi(h)
  {
    ToNiTrimmed(h);
    NiRoundTrip(h);
  }

  lemma PlainStems()
    ensures Plain("function") && Plain("structure") && Plain("invoice") && Plain("data")
    ensures Plain("root") && Plain("plant") && Plain("infrastructure") && Plain("order")
    ensures NoRefField("structure_filepath") && NoRefField("endpoint")
  {
    assert "_uri"[3] == 'i' && "_cid"[3] == 'd' && "uri"[2] == 'i';
  }

  // --- the minted Order ------------------------------------------------------------------------------

  /** The new Order refers to exactly the given Function and Structure and to the new Invoice, and that Invoice
      to the given data. */
  lemma MintedReads(n: Node, prior: Dict, functionId: string, structureId: string, dataId: string, name: Option<Json>,
                    loc: Locators)
    requires Ready(n) && Stable(functionId) && Stable(structureId) && Stable(dataId)
    ensures MintOrder(n, prior, functionId, structureId, dataId, name).Ok?
    ensures var r := MintOrder(n, prior, functionId, structureId, dataId, name).value.value;
      && RefId(r.invoice, "data", loc) == Ok(Some(dataId))
      && RefId(r.order, "function", loc) == Ok(Some(functionId))
      && RefId(r.order, "structure", loc) == Ok(Some(structureId))
      && RefId(r.order, "invoice", loc) == Ok(Some(JsonId(n, Obj(r.invoice))))
      && r.orderId == JsonId(n, Obj(r.order))
  {
    PlainStems();
    WithReads(n, [], "data", dataId, loc);
    var invoice := With(n, [], "data", dataId).value;
    JsonIdStable(n, Obj(invoice));
    var o0 := StripEbom(Del(prior, FLAT));
    WithReads(n, o0, "function", functionId, loc);
    var o1 := With(n, o0, "function", functionId).value;
    WithReads(n, o1, "structure", structureId, loc);
    WithKeeps(n, o1, "structure", structureId, "function", loc);
    var o2 := With(n, o1, "structure", structureId).value;
    WithReads(n, o2, "invoice", JsonId(n, Obj(invoice)), loc);
    WithKeeps(n, o2, "invoice", JsonId(n, Obj(invoice)), "function", loc);
    WithKeeps(n, o2, "invoice", JsonId(n, Obj(invoice)), "structure", loc);
    var o3 := With(n, o2, "invoice", JsonId(n, Obj(invoice))).value;
    TailKeeps(n, o3, name, "function", loc);
    TailKeeps(n, o3, name, "structure", loc);
    TailKeeps(n, o3, name, "invoice", loc);
  }

  /** The path and endpoint fields leave references alone. */
  lemma TailKeeps(n: Node, o3: Dict, name: Option<Json>, stem: string, loc: Locators)
    ensures var o4 := if name.Some? then Set(o3, "structure_filepath", name.value) else o3;
      && RefId(Set(o4, "endpoint", Str(n.endpoint)), stem, loc) == RefId(o3, stem, loc)
      && RefUri(Set(o4, "endpoint", Str(n.endpoint)), stem) == RefUri(o3, stem)
  {
    PlainStems();
    var o4 := if name.Some? then Set(o3, "structure_filepath", name.value) else o3;
    if name.Some? {
      SetOtherKeeps(o3, "structure_filepath", name.value, stem, loc);
    }
    SetOtherKeeps(o4, "endpoint", Str(n.endpoint), stem, loc);
  }

  /** The fields `strip_ebom_stems` removes. */
  ghost predicate EbomField(k: string) {
    k in {"function_sbom_uri", "function_sbom_cid", "structure_sbom_uri", "structure_sbom_cid",
          "input_data_sbom_uri", "input_data_sbom_cid"}
  }

  /** Fields a re-mint may change, the path aside. */
  ghost predicate Reminted(k: string) {
    || k in {UriField("function"), CidField("function"), UriField("structure"), CidField("structure")}
    || k in {UriField("invoice"), CidField("invoice"), "endpoint", FLAT}
    || EbomField(k)
  }

  /** The re-minted Order differs from the prior one in those fields and a given path only. */
  lemma MintFrame(n: Node, prior: Dict, functionId: string, structureId: string, dataId: string, name: Option<Json>,
                  k: string)
    requires IsSha(n.sha) && MintOrder(n, prior, functionId, structureId, dataId, name).Ok? && !Reminted(k)
    ensures Get(MintOrder(n, prior, functionId, structureId, dataId, name).value.value.order, k)
         == if name.Some? && k == "structure_filepath" then name else Get(prior, k)
  {
    ShellFrame(n, prior, functionId, structureId, JsonId(n, Obj(With(n, [], "data", dataId).value)), name, k);
    GetDel(prior, FLAT, k);
    StripFrame(Del(prior, FLAT), k);
  }

  lemma StripFrame(d: Dict, k: string)
    ensures Get(StripEbom(d), k) == if EbomField(k) then None else Get(d, k)
  {
    var d1 := Del(d, "function_sbom_uri");
    var d2 := Del(d1, "function_sbom_cid");
    var d3 := Del(d2, "structure_sbom_uri");
    var d4 := Del(d3, "structure_sbom_cid");
    var d5 := Del(d4, "input_data_sbom_uri");
    GetDel(d, "function_sbom_uri", k);
    GetDel(d1, "function_sbom_cid", k);
    GetDel(d2, "structure_sbom_uri", k);
    GetDel(d3, "structure_sbom_cid", k);
    GetDel(d4, "input_data_sbom_uri", k);
    GetDel(d5, "input_data_sbom_cid", k);
  }

  // --- the prior run ---------------------------------------------------------------------------------

  /** The stored document a reference leads to. */
  function StoredDoc(m: Mesh, d: Dict, stem: string): Option<Dict> {
    match RefKey(d, stem, m)
    case Ok(Some(key)) => (match m.cat(key) case Ok(Obj(inner)) => Some(inner) case _ => None)
    case _ => None
  }

  /** One nested document, as the erasure law gives it. */
  lemma ChildDoc(d: Dict, depth: int, visited: set<string>, m: Mesh, stem: string, child: Dict)
    requires !Has(d, FLAT) && StoredNoFlat(m) && Inspect(d, depth, visited, m).Ok?
    requires At(Inspect(d, depth, visited, m).value, [stem]) == Some(Obj(child))
    ensures depth > 0 && !Has(Del(child, FLAT), FLAT)
    ensures StoredDoc(m, d, stem) == Some(Del(child, FLAT))
    ensures RefKey(d, stem, m).Ok? && RefKey(d, stem, m).value.Some?
    ensures Inspect(Del(child, FLAT), depth - 1, visited + {RefKey(d, stem, m).value.value}, m) == Ok(child)
  {
    var out := Inspect(d, depth, visited, m).value;
    var key, inner := ChildNode(d, out, depth, visited, m, stem);
    EraseTop(inner, depth - 1, visited + {key}, m);
  }

  /** The stored Invoice and Order of a run. */
  function StoredRun(m: Mesh, bom: Dict): Option<(Dict, Dict)> {
    match StoredDoc(m, bom, "invoice")
    case None => None
    case Some(invoice) =>
      match StoredDoc(m, invoice, "order")
      case None => None
      case Some(order) => Some((invoice, order))
  }

  /** The inspect tree of a run, taken apart. */
  lemma RunParts(n: Node, bom: Dict, depth: int)
    requires StoredNoFlat(n.mesh) && RunAtDepth(n, bom, depth).Ok?
    ensures var (invoice, order) := RunAtDepth(n, bom, depth).value;
      && StoredDoc(n.mesh, bom, "invoice") == Some(Del(invoice, FLAT)) && !Has(Del(invoice, FLAT), FLAT)
      && At(invoice, ["order"]) == Some(Obj(order))
      && RefKey(bom, "invoice", n.mesh).Ok? && RefKey(bom, "invoice", n.mesh).value.Some?
      && Inspect(Del(invoice, FLAT), depth - 1, {RefKey(bom, "invoice", n.mesh).value.value}, n.mesh) == Ok(invoice)
  {
    var (invoice, order) := RunAtDepth(n, bom, depth).value;
    RunInvoice(n, bom, depth);
    InvoiceParts(bom, depth, n.mesh, invoice);
  }

  lemma RunInvoice(n: Node, bom: Dict, depth: int)
    requires RunAtDepth(n, bom, depth).Ok?
    ensures FlattenBomInvoice(bom, depth, n.mesh) == Ok(Obj(RunAtDepth(n, bom, depth).value.0))
    ensures At(RunAtDepth(n, bom, depth).value.0, ["order"]) == Some(Obj(RunAtDepth(n, bom, depth).value.1))
  {
    InvoiceOrderIs(FlattenBomInvoice(bom, depth, n.mesh).value);
  }

  lemma InvoiceOrderIs(j: Json)
    requires InvoiceOrder(j).Ok?
    ensures j == Obj(InvoiceOrder(j).value.0) && At(j.fields, ["order"]) == Some(Obj(InvoiceOrder(j).value.1))
  {
  }

  lemma InvoiceParts(bom: Dict, depth: int, m: Mesh, invoice: Dict)
    requires StoredNoFlat(m) && FlattenBomInvoice(bom, depth, m) == Ok(Obj(invoice))
    ensures StoredDoc(m, bom, "invoice") == Some(Del(invoice, FLAT)) && !Has(Del(invoice, FLAT), FLAT)
    ensures RefKey(bom, "invoice", m).Ok? && RefKey(bom, "invoice", m).value.Some?
    ensures Inspect(Del(invoice, FLAT), depth - 1, {RefKey(bom, "invoice", m).value.value}, m) == Ok(invoice)
  {
    var key := RefKey(bom, "invoice", m).value.value;
    assert NoFlat(m.cat(key).value);
    EraseTop(m.cat(key).value.fields, depth - 1, {key}, m);
  }

  /** Without their bags, what the link operations look at are the stored documents of the run. */
  lemma PriorIsStored(n: Node, bom: Dict, depth: int)
    requires StoredNoFlat(n.mesh) && RunAtDepth(n, bom, depth).Ok?
    ensures var (invoice, order) := RunAtDepth(n, bom, depth).value;
      StoredRun(n.mesh, bom) == Some((Del(invoice, FLAT), Del(order, FLAT)))
  {
    var (invoice, order) := RunAtDepth(n, bom, depth).value;
    RunParts(n, bom, depth);
    ChildDoc(Del(invoice, FLAT), depth - 1, {RefKey(bom, "invoice", n.mesh).value.value}, n.mesh, "order", order);
  }

  lemma PriorNested(n: Node, bom: Dict, depth: int, stem: string)
    requires StoredNoFlat(n.mesh) && RunAtDepth(n, bom, depth).Ok?
      && NestedDoc(RunAtDepth(n, bom, depth).value.1, stem).Ok?
    ensures var order := RunAtDepth(n, bom, depth).value.1;
      StoredDoc(n.mesh, Del(order, FLAT), stem) == Some(Del(NestedDoc(order, stem).value, FLAT))
  {
    var visited := OrderInspected(n, bom, depth);
    NestedStored(n.mesh, RunAtDepth(n, bom, depth).value.1, depth - 1 - 1, visited, stem);
  }

  /** A document nested in an inspected one is the stored document, its bag aside. */
  lemma NestedStored(m: Mesh, order: Dict, depth: int, visited: set<string>, stem: string)
    requires StoredNoFlat(m) && !Has(Del(order, FLAT), FLAT) && NestedDoc(order, stem).Ok?
    requires Inspect(Del(order, FLAT), depth, visited, m) == Ok(order)
    ensures StoredDoc(m, Del(order, FLAT), stem) == Some(Del(NestedDoc(order, stem).value, FLAT))
  {
    ChildDoc(Del(order, FLAT), depth, visited, m, stem, NestedDoc(order, stem).value);
  }

  /** The Order of a run, as it was inspected. */
  lemma OrderInspected(n: Node, bom: Dict, depth: int) returns (visited: set<string>)
    requires StoredNoFlat(n.mesh) && RunAtDepth(n, bom, depth).Ok?
    ensures var order := RunAtDepth(n, bom, depth).value.1;
      !Has(Del(order, FLAT), FLAT) && Inspect(Del(order, FLAT), depth - 1 - 1, visited, n.mesh) == Ok(order)
  {
    var (invoice, order) := RunAtDepth(n, bom, depth).value;
    RunParts(n, bom, depth);
    var key := RefKey(bom, "invoice", n.mesh).value.value;
    ChildDoc(Del(invoice, FLAT), depth - 1, {key}, n.mesh, "order", order);
    visited := {key} + {RefKey(Del(invoice, FLAT), "order", n.mesh).value.value};
  }

  // --- verified reads --------------------------------------------------------------------------------

  type Loads = seq<Byte> -> Result<Json>

  /** `json.loads` undoes `json.dumps`. */
  ghost predicate JsonCodec(n: Node, loads: Loads) {
    forall j :: loads(n.dumps(j)) == Ok(j)
  }

  /** The mesh reads through `cat_bytes`, so a committing key yields bytes of the digest it fixes. */
  ghost predicate VerifiedMesh(n: Node, loads: Loads) {
    forall key :: n.mesh.cat(key).Ok? && Committing(key) ==>
      exists b :: loads(b) == n.mesh.cat(key) && FixedDigest(key) == Ok(n.sha(b))
  }

  /** The reference is read through a committing key. */
  ghost predicate CommittingRef(m: Mesh, d: Dict, stem: string) {
    match RefKey(d, stem, m)
    case Ok(Some(key)) => Committing(key)
    case _ => false
  }

  /** The key a reference is read by fixes the same digest as its id. */
  lemma KeyMatchesId(m: Mesh, d: Dict, stem: string, id: string)
    requires CommittingRef(m, d, stem) && RefId(d, stem, m.locators) == Ok(Some(id)) && Stable(id) && IsNiOrDigest(id)
    ensures FixedDigest(RefKey(d, stem, m).value.value) == FromNi(id)
  {
    var key := RefKey(d, stem, m).value.value;
    if RefUri(d, stem).Some? {
      ShownText(d, stem, key, m.locators);
      LocatorMatchesId(key, Get(d, CidField(stem)), Get(d, "content_id"), stem, m.locators, id);
    } else {
      BareIdFixed(id);
    }
  }

  /** Only the trimmed text under the `_uri` name matters. */
  lemma ShownText(d: Dict, stem: string, key: string, loc: Locators)
    requires RefUri(d, stem) == Some(key)
    ensures key != [] && Strip(key) == key
    ensures RefId(d, stem, loc) == IdOfFields(Some(Str(key)), Get(d, CidField(stem)), Get(d, "content_id"), stem, loc)
  {
    StripTwice(Get(d, UriField(stem)).value.s);
    SameStripped(Get(d, UriField(stem)), Some(Str(key)), Get(d, CidField(stem)), Get(d, "content_id"), stem, loc);
  }

  lemma BareIdFixed(id: string)
    requires Stable(id) && IsNiOrDigest(id)
    ensures Committing(id) && FixedDigest(id) == FromNi(id)
  {
    StableDigest(id);
    FromNiNamed(id);
    DigestIsNoUrl(id);
  }

  lemma SameStripped(uri: Option<Json>, uri': Option<Json>, cid: Option<Json>, bare: Option<Json>, stem: string,
                     loc: Locators)
    requires StrippedString(uri) == StrippedString(uri')
    ensures IdOfFields(uri, cid, bare, stem, loc) == IdOfFields(uri', cid, bare, stem, loc)
  {
  }

  /** The same for the text under the `_uri` name. */
  lemma LocatorMatchesId(key: string, cid: Option<Json>, bare: Option<Json>, stem: string, loc: Locators, id: string)
    requires Committing(key) && key != [] && Strip(key) == key
      && IdOfFields(Some(Str(key)), cid, bare, stem, loc) == Ok(Some(id))
    requires IsNiOrDigest(id)
    ensures FixedDigest(key) == FromNi(id)
  {
    if IsHl(key) {
      HlMatchesId(key, cid, bare, stem, loc, id);
    } else if IsHttpUri(key) {
      UrlMatchesId(key, cid, bare, stem, loc, id);
    } else {
      CanonicalKeepsDigest(key);
    }
  }

  lemma HlMatchesId(key: string, cid: Option<Json>, bare: Option<Json>, stem: string, loc: Locators, id: string)
    requires IsHl(key) && key != [] && Strip(key) == key
    requires IdOfFields(Some(Str(key)), cid, bare, stem, loc) == Ok(Some(id))
    ensures Commitment(key) == FromNi(id)
  {
  }

  lemma UrlMatchesId(key: string, cid: Option<Json>, bare: Option<Json>, stem: string, loc: Locators, id: string)
    requires !IsHl(key) && IsHttpUri(key) && Committing(key) && key != [] && Strip(key) == key
    requires IdOfFields(Some(Str(key)), cid, bare, stem, loc) == Ok(Some(id))
    ensures FixedDigest(key) == FromNi(id)
  {
    var digest := FixedOfCas(key);
    CasKeyId(key, digest, loc);
    UrlReadsAs(key, cid, bare, stem, loc, NiOf(Codec.HexToBytes(digest)));
  }

  /** A committing URL fixes the digest in its path. */
  lemma FixedOfCas(key: string) returns (digest: string)
    requires !IsHl(key) && IsHttpUri(key) && Committing(key)
    ensures FixedDigest(key) == Ok(digest) && CasPathDigest(RawUrlPath(key)) == Some(digest)
  {
    digest := CasPathDigest(RawUrlPath(key)).value;
  }

  /** A URL that is known reads as what it is known as. */
  lemma UrlReadsAs(key: string, cid: Option<Json>, bare: Option<Json>, stem: string, loc: Locators, found: string)
    requires !IsHl(key) && IsHttpUri(key) && key != [] && Strip(key) == key && found != []
    requires ContentIdFromUri(key, loc) == Ok(Some(found))
    ensures IdOfFields(Some(Str(key)), cid, bare, stem, loc) == Ok(Some(found))
  {
  }

  lemma CasKeyId(key: string, digest: string, loc: Locators)
    requires IsHttpUri(key) && Strip(key) == key && CasPathDigest(RawUrlPath(key)) == Some(digest)
    ensures IsHex64(digest) && ContentIdFromUri(key, loc) == Ok(Some(NiOf(Codec.HexToBytes(digest))))
    ensures FromNi(NiOf(Codec.HexToBytes(digest))) == Ok(digest)
  {
    RawOfTrimmed(key);
    assert IsPathKey(digest);
    ToNiTrimmed(digest);
    NiRoundTrip(digest);
  }

  lemma CanonicalKeepsDigest(key: string)
    requires IsNiOrDigest(key) && EqualityId(key).Ok?
    ensures FromNi(EqualityId(key).value) == FromNi(key)
  {
    StripTwice(key);
    NiRoundTrip(FromNi(Strip(key)).value);
  }

  /** A written digest reference is read through a CAS path, which fixes its bytes. */
  lemma WrittenCommits(n: Node, d: Dict, stem: string, id: string)
    requires Ready(n) && Stable(id) && IsNiOrDigest(id)
    ensures With(n, d, stem, id).Ok?
    ensures RefUri(With(n, d, stem, id).value, stem).Some? && Committing(RefUri(With(n, d, stem, id).value, stem).value)
  {
    StableDigest(id);
    SetRefOfDigest(d, stem, id, n.base);
    var raw := Named(id).value;
    CasUriCommits(Codec.BytesToHex(raw), n.base);
    WrittenField(d, stem, Str(CasLdpUri(Codec.BytesToHex(raw), n.base).value));
  }

  lemma CasUriCommits(hex: string, base: string)
    requires IsHex64(hex) && HostOnly(base)
    ensures CasLdpUri(hex, base).Ok?
    ensures var uri := CasLdpUri(hex, base).value; uri != [] && Strip(uri) == uri && Committing(uri)
  {
    CasUriPath(hex, base);
    RawOfTrimmed(CasLdpUri(hex, base).value);
    assert (CAS_PATH + hex)[9..] == hex;
  }

  /** A verified read of a reference yields the one document whose encoding the id names. */
  lemma ReadIsWritten(n: Node, loads: Loads, d: Dict, stem: string, j: Json)
    requires IsSha(n.sha) && JsonCodec(n, loads) && VerifiedMesh(n, loads) && NoCollision(n.sha, n.dumps(j))
    requires CommittingRef(n.mesh, d, stem) && RefId(d, stem, n.mesh.locators) == Ok(Some(JsonId(n, j)))
    requires StoredDoc(n.mesh, d, stem).Some?
    ensures Obj(StoredDoc(n.mesh, d, stem).value) == j
  {
    JsonIdStable(n, j);
    KeyMatchesId(n.mesh, d, stem, JsonId(n, j));
    NiTextNames(n.sha, n.dumps(j));
    FromNiNamed(JsonId(n, j));
    var key := RefKey(d, stem, n.mesh).value.value;
    var b :| loads(b) == n.mesh.cat(key) && FixedDigest(key) == Ok(n.sha(b));
    assert b == n.dumps(j);
  }

  // --- one link step ---------------------------------------------------------------------------------

  datatype Link =
    | ByProcess(f: FunctionArgs)
    | ByStructure(s: StructureArgs)
    | ByOrder(f: FunctionArgs, s: StructureArgs)

  function Linked(n: Node, bom: Dict, link: Link): Result<Put<Minted>>
    requires IsSha(n.sha)
  {
    match link
    case ByProcess(f) => LinkProcess(n, bom, f)
    case ByStructure(s) => LinkStructure(n, bom, s)
    case ByOrder(f, s) => LinkOrder(n, bom, f, s)
  }

  /** The step, once the prior Invoice and Order are there. */
  function Step(n: Node, invoice: Dict, order: Dict, link: Link): Result<Put<Minted>>
    requires IsSha(n.sha)
  {
    match link
    case ByProcess(f) => ProcessStep(n, invoice, order, f)
    case ByStructure(s) => StructureStep(n, invoice, order, s)
    case ByOrder(f, s) => OrderStep(n, invoice, order, f, s)
  }

  lemma LinkedStep(n: Node, bom: Dict, link: Link)
    requires IsSha(n.sha) && Linked(n, bom, link).Ok?
    ensures PriorRun(n, bom).Ok?
    ensures var (invoice, order) := PriorRun(n, bom).value; Step(n, invoice, order, link) == Linked(n, bom, link)
  {
  }

  predicate CarriesStructure(link: Link) {
    link.ByProcess? || (link.ByOrder? && !AsksStructure(link.s))
  }

  predicate CarriesFunction(link: Link) {
    link.ByStructure? || (link.ByOrder? && !AsksFunction(link.f))
  }

  predicate AsksPath(link: Link) {
    !CarriesStructure(link) && (link.s.filepath.Some? || link.s.filepathName.Some?)
  }

  /** Where the id of a reference can be read, it reads back as it is written. */
  predicate StableRef(d: Dict, stem: string, loc: Locators) {
    match RefId(d, stem, loc)
    case Ok(Some(id)) => id != [] ==> Stable(id)
    case _ => true
  }

  ghost predicate StableRun(m: Mesh, bom: Dict) {
    match StoredRun(m, bom)
    case None => true
    case Some((invoice, order)) =>
      StableRef(invoice, "data", m.locators) && StableRef(order, "function", m.locators)
        && StableRef(order, "structure", m.locators)
  }

  /** How the pieces of a minted Order were chosen. */
  datatype Choice = Choice(functionId: string, structureId: string, dataId: string, name: Option<Json>)

  function FunctionOf(n: Node, order: Dict, link: Link): Result<Put<string>>
    requires IsSha(n.sha)
  {
    if CarriesFunction(link) then CarriedFunction(n, order) else RebuiltFunction(n, order, link.f)
  }

  function StructureOf(n: Node, order: Dict, link: Link): Result<Put<(string, Option<Json>)>>
    requires IsSha(n.sha)
  {
    if CarriesStructure(link) then CarriedStructure(n, order) else NewStructure(n, order, link.s)
  }

  ghost predicate ChosenStructure(n: Node, order: Dict, link: Link, id: string, name: Option<Json>)
    requires IsSha(n.sha)
  {
    StructureOf(n, order, link).Ok? && StructureOf(n, order, link).value.value == (id, name)
  }

  ghost predicate ChosenFunction(n: Node, order: Dict, link: Link, id: string)
    requires IsSha(n.sha)
  {
    FunctionOf(n, order, link).Ok? && FunctionOf(n, order, link).value.value == id
  }

  /** Every link step is a mint from the prior Order with carried or rebuilt ids. */
  ghost predicate Chosen(n: Node, invoice: Dict, order: Dict, link: Link, c: Choice)
    requires IsSha(n.sha)
  {
    && Require(n, invoice, "data") == Ok(c.dataId)
    && ChosenStructure(n, order, link, c.structureId, c.name) && ChosenFunction(n, order, link, c.functionId)
  }

  /** The mint a choice leads to. */
  ghost predicate Mints(n: Node, order: Dict, c: Choice, m: Minted)
    requires IsSha(n.sha)
  {
    var minted := MintOrder(n, order, c.functionId, c.structureId, c.dataId, c.name);
    minted.Ok? && minted.value.value == m
  }

  /** A step that succeeds assembles its two halves. */
  lemma StepAssembles(n: Node, invoice: Dict, order: Dict, link: Link)
    requires IsSha(n.sha) && Step(n, invoice, order, link).Ok?
    ensures Step(n, invoice, order, link)
         == Assemble(n, order, FunctionOf(n, order, link), StructureOf(n, order, link), Require(n, invoice, "data"))
  {
    if link.ByOrder? {
      OrderHalves(n, order, link);
      var data := Require(n, invoice, "data");
      AssembleNeedsAll(n, order, OrderFunction(n, order, link.f), OrderStructure(n, order, link.s), data);
    }
  }

  lemma OrderHalves(n: Node, order: Dict, link: Link)
    requires IsSha(n.sha) && link.ByOrder?
    ensures OrderFunction(n, order, link.f).Ok? ==> OrderFunction(n, order, link.f) == FunctionOf(n, order, link)
    ensures OrderStructure(n, order, link.s).Ok? ==> OrderStructure(n, order, link.s) == StructureOf(n, order, link)
  {
  }

  lemma AssembleNeedsAll(n: Node, order: Dict, f: Result<Put<string>>, s: Result<Put<(string, Option<Json>)>>,
                         data: Result<string>)
    requires IsSha(n.sha) && Assemble(n, order, f, s, data).Ok?
    ensures f.Ok? && s.Ok? && data.Ok?
    ensures Mints(n, order, Choice(f.value.value, s.value.value.0, data.value, s.value.value.1),
                  Assemble(n, order, f, s, data).value.value)
  {
  }

  lemma StepChoice(n: Node, invoice: Dict, order: Dict, link: Link) returns (c: Choice)
    requires IsSha(n.sha) && Step(n, invoice, order, link).Ok?
    ensures Chosen(n, invoice, order, link, c) && Mints(n, order, c, Step(n, invoice, order, link).value.value)
  {
    var f, s, data := FunctionOf(n, order, link), StructureOf(n, order, link), Require(n, invoice, "data");
    StepAssembles(n, invoice, order, link);
    AssembleNeedsAll(n, order, f, s, data);
    c := Choice(f.value.value, s.value.value.0, data.value, s.value.value.1);
  }

  /** The chosen ids can be written and read back. */
  lemma ChoiceStable(n: Node, invoice: Dict, order: Dict, link: Link, c: Choice)
    requires IsSha(n.sha) && Chosen(n, invoice, order, link, c)
    requires StableRef(Del(invoice, FLAT), "data", n.mesh.locators)
    requires StableRef(Del(order, FLAT), "function", n.mesh.locators)
      && StableRef(Del(order, FLAT), "structure", n.mesh.locators)
    ensures Stable(c.dataId) && Stable(c.functionId) && Stable(c.structureId)
  {
    RequiredStable(n, invoice, "data", c.dataId);
    ChosenFunctionStable(n, order, link, c.functionId);
    ChosenStructureStable(n, order, link, c.structureId, c.name);
  }

  lemma RequiredStable(n: Node, d: Dict, stem: string, id: string)
    requires Require(n, d, stem) == Ok(id) && StableRef(Del(d, FLAT), stem, n.mesh.locators)
    ensures Stable(id)
  {
    RequireReads(n, d, stem, id);
    FlatHidesNothing(d, stem, n.mesh);
  }

  lemma ChosenFunctionStable(n: Node, order: Dict, link: Link, id: string)
    requires IsSha(n.sha) && ChosenFunction(n, order, link, id)
      && StableRef(Del(order, FLAT), "function", n.mesh.locators)
    ensures Stable(id)
  {
    if CarriesFunction(link) {
      RequiredStable(n, order, "function", id);
    } else {
      RebuiltStable(n, NestedDoc(order, "function").value, link.f);
    }
  }

  lemma ChosenStructureStable(n: Node, order: Dict, link: Link, id: string, name: Option<Json>)
    requires IsSha(n.sha) && ChosenStructure(n, order, link, id, name)
      && StableRef(Del(order, FLAT), "structure", n.mesh.locators)
    ensures Stable(id)
  {
    if CarriesStructure(link) {
      RequiredStable(n, order, "structure", id);
    } else {
      JsonIdStable(n, Obj(LinkedStructure(n, order, link.s).value.0));
    }
  }

  lemma RebuiltStable(n: Node, prev: Dict, f: FunctionArgs)
    requires IsSha(n.sha) && RebuildFunction(n, prev, f).Ok?
    ensures Stable(RebuildFunction(n, prev, f).value.value)
  {
    JsonIdStable(n, Obj(FunctionDoc(n, prev, f).value.value));
  }

  lemma RequireReads(n: Node, d: Dict, stem: string, id: string)
    requires Require(n, d, stem) == Ok(id)
    ensures RefId(d, stem, n.mesh.locators) == Ok(Some(id)) && id != []
  {
  }

  /** What a mint reads as, on any node. */
  ghost predicate ReadsAs(n: Node, m: Minted, c: Choice, loc: Locators)
    requires IsSha(n.sha)
  {
    && RefId(m.invoice, "data", loc) == Ok(Some(c.dataId))
    && RefId(m.order, "invoice", loc) == Ok(Some(JsonId(n, Obj(m.invoice))))
    && RefId(m.order, "structure", loc) == Ok(Some(c.structureId))
    && RefId(m.order, "function", loc) == Ok(Some(c.functionId))
    && m.orderId == JsonId(n, Obj(m.order))
  }

  lemma MintsReads(n: Node, order: Dict, c: Choice, m: Minted, loc: Locators)
    requires Ready(n) && Mints(n, order, c, m)
    requires Stable(c.dataId) && Stable(c.functionId) && Stable(c.structureId)
    ensures ReadsAs(n, m, c, loc)
  {
    MintedReads(n, order, c.functionId, c.structureId, c.dataId, c.name, loc);
  }

  /** What a choice carries. */
  lemma ChoiceCarries(n: Node, invoice: Dict, order: Dict, link: Link, c: Choice)
    requires IsSha(n.sha) && Chosen(n, invoice, order, link, c)
    ensures RefId(invoice, "data", n.mesh.locators) == Ok(Some(c.dataId))
    ensures CarriesStructure(link) ==> RefId(order, "structure", n.mesh.locators) == Ok(Some(c.structureId))
    ensures CarriesFunction(link) ==> RefId(order, "function", n.mesh.locators) == Ok(Some(c.functionId))
  {
    RequireReads(n, invoice, "data", c.dataId);
    if CarriesStructure(link) {
      RequireReads(n, order, "structure", c.structureId);
    }
    if CarriesFunction(link) {
      RequireReads(n, order, "function", c.functionId);
    }
  }

  /** What every link step keeps of the run it starts from. The new Invoice has the run's output data; the new
      Order refers to that Invoice and to the Function and Structure of the prior Order unless the step asks for
      new ones. */
  lemma LinkLaw(n: Node, bom: Dict, link: Link, loc: Locators)
    requires Ready(n) && StoredNoFlat(n.mesh) && StableRun(n.mesh, bom) && Linked(n, bom, link).Ok?
    ensures StoredRun(n.mesh, bom).Some?
    ensures var ((invoice, order), m) := (StoredRun(n.mesh, bom).value, Linked(n, bom, link).value.value);
      && RefId(m.invoice, "data", loc) == RefId(invoice, "data", n.mesh.locators)
      && RefId(m.order, "invoice", loc) == Ok(Some(JsonId(n, Obj(m.invoice))))
      && (CarriesStructure(link) ==> RefId(m.order, "structure", loc) == RefId(order, "structure", n.mesh.locators))
      && (CarriesFunction(link) ==> RefId(m.order, "function", loc) == RefId(order, "function", n.mesh.locators))
      && m.orderId == JsonId(n, Obj(m.order))
  {
    LinkedStep(n, bom, link);
    var (invoice, order) := PriorRun(n, bom).value;
    var c := StepChoice(n, invoice, order, link);
    PriorIsStored(n, bom, 4);
    ChoiceStable(n, invoice, order, link, c);
    MintsReads(n, order, c, Linked(n, bom, link).value.value, loc);
    ChoiceCarries(n, invoice, order, link, c);
    FlatHidesNothing(invoice, "data", n.mesh);
    FlatHidesNothing(order, "function", n.mesh);
    FlatHidesNothing(order, "structure", n.mesh);
  }

  lemma LinkedName(n: Node, order: Dict, s: StructureArgs)
    requires LinkedStructure(n, order, s).Ok?
    ensures StructureName(order, s) == Ok(LinkedStructure(n, order, s).value.1)
  {
  }

  /** A path that was not asked for is the prior one. */
  lemma NameCarries(n: Node, order: Dict, link: Link, id: string, name: Option<Json>)
    requires IsSha(n.sha) && ChosenStructure(n, order, link, id, name) && !AsksPath(link) && name.Some?
    ensures Get(order, "structure_filepath") == name
  {
    assert !CarriesStructure(link);
    NewName(n, order, link.s, id, name);
    PriorName(order, link.s, name);
  }

  lemma NewName(n: Node, order: Dict, s: StructureArgs, id: string, name: Option<Json>)
    requires IsSha(n.sha) && NewStructure(n, order, s).Ok? && NewStructure(n, order, s).value.value == (id, name)
    ensures StructureName(order, s) == Ok(name)
  {
    LinkedName(n, order, s);
  }

  lemma PriorName(order: Dict, s: StructureArgs, name: Option<Json>)
    requires StructureName(order, s) == Ok(name) && name.Some? && s.filepath.None? && s.filepathName.None?
    ensures Get(order, "structure_filepath") == name
  {
  }

  lemma MintsFrame(n: Node, order: Dict, c: Choice, m: Minted, k: string)
    requires IsSha(n.sha) && Mints(n, order, c, m) && !Reminted(k)
    ensures Get(m.order, k) == if c.name.Some? && k == "structure_filepath" then c.name else Get(order, k)
  {
    MintFrame(n, order, c.functionId, c.structureId, c.dataId, c.name, k);
  }

  /** Every field but those, the endpoint, the stripped eBOM fields and a requested path is that of the stored
      prior Order. */
  lemma LinkFrame(n: Node, bom: Dict, link: Link, k: string)
    requires IsSha(n.sha) && StoredNoFlat(n.mesh) && Linked(n, bom, link).Ok?
    requires !Reminted(k) && !(AsksPath(link) && k == "structure_filepath")
    ensures StoredRun(n.mesh, bom).Some?
    ensures Get(Linked(n, bom, link).value.value.order, k) == Get(StoredRun(n.mesh, bom).value.1, k)
  {
    LinkedStep(n, bom, link);
    var (invoice, order) := PriorRun(n, bom).value;
    var c := StepChoice(n, invoice, order, link);
    PriorIsStored(n, bom, 4);
    MintsFrame(n, order, c, Linked(n, bom, link).value.value, k);
    if !AsksPath(link) && c.name.Some? {
      NameCarries(n, order, link, c.structureId, c.name);
    }
    GetDel(order, FLAT, k);
  }

  // --- linkOrder against the one-sided operations ----------------------------------------------------

  /** With only Function arguments `linkOrder` puts and returns what `linkProcess` does; it only also insists on a
      readable Function reference. */
  lemma OrderIsProcess(n: Node, bom: Dict, f: FunctionArgs, s: StructureArgs)
    requires IsSha(n.sha) && AsksFunction(f) && !AsksStructure(s)
    ensures LinkOrder(n, bom, f, s).Ok? <==>
      LinkProcess(n, bom, f).Ok? && Require(n, PriorRun(n, bom).value.1, "function").Ok?
    ensures LinkOrder(n, bom, f, s).Ok? ==> LinkOrder(n, bom, f, s) == LinkProcess(n, bom, f)
  {
    if PriorRun(n, bom).Ok? {
      var (invoice, order) := PriorRun(n, bom).value;
      OrderStepIsProcess(n, invoice, order, f, s);
    }
  }

  lemma OrderStepIsProcess(n: Node, invoice: Dict, order: Dict, f: FunctionArgs, s: StructureArgs)
    requires IsSha(n.sha) && AsksFunction(f) && !AsksStructure(s)
    ensures OrderStep(n, invoice, order, f, s).Ok? <==>
      ProcessStep(n, invoice, order, f).Ok? && Require(n, order, "function").Ok?
    ensures OrderStep(n, invoice, order, f, s).Ok? ==>
      OrderStep(n, invoice, order, f, s) == ProcessStep(n, invoice, order, f)
  {
    assert OrderStructure(n, order, s) == CarriedStructure(n, order);
    assert Require(n, order, "function").Ok? ==> OrderFunction(n, order, f) == RebuiltFunction(n, order, f);
    assert !Require(n, order, "function").Ok? ==> OrderFunction(n, order, f).Err?;
  }

  /** With only Structure arguments `linkOrder` puts and returns what `linkStructure` does; it only also insists on a
      readable Structure reference. */
  lemma OrderIsStructure(n: Node, bom: Dict, f: FunctionArgs, s: StructureArgs)
    requires IsSha(n.sha) && !AsksFunction(f) && AsksStructure(s)
    ensures LinkOrder(n, bom, f, s).Ok? <==>
      LinkStructure(n, bom, s).Ok? && Require(n, PriorRun(n, bom).value.1, "structure").Ok?
    ensures LinkOrder(n, bom, f, s).Ok? ==> LinkOrder(n, bom, f, s) == LinkStructure(n, bom, s)
  {
    if PriorRun(n, bom).Ok? {
      var (invoice, order) := PriorRun(n, bom).value;
      OrderStepIsStructure(n, invoice, order, f, s);
    }
  }

  lemma OrderStepIsStructure(n: Node, invoice: Dict, order: Dict, f: FunctionArgs, s: StructureArgs)
    requires IsSha(n.sha) && !AsksFunction(f) && AsksStructure(s)
    ensures OrderStep(n, invoice, order, f, s).Ok? <==>
      StructureStep(n, invoice, order, s).Ok? && Require(n, order, "structure").Ok?
    ensures OrderStep(n, invoice, order, f, s).Ok? ==>
      OrderStep(n, invoice, order, f, s) == StructureStep(n, invoice, order, s)
  {
    assert OrderFunction(n, order, f) == CarriedFunction(n, order);
    assert Require(n, order, "structure").Ok? ==> OrderStructure(n, order, s) == NewStructure(n, order, s);
    assert !Require(n, order, "structure").Ok? ==> OrderStructure(n, order, s).Err?;
  }

  // --- linkStructure changes the Structure -----------------------------------------------------------

  /** No other bytes have the digest of any of these. */
  ghost predicate Unforged(sha: Sha, puts: seq<seq<Byte>>) {
    forall i :: 0 <= i < |puts| ==> NoCollision(sha, puts[i])
  }

  lemma SameIds(n: Node, prev: Dict)
    requires PrevIds(n, prev).Ok?
    ensures IdsOfPairing(n, Del(prev, FLAT)) == PrevIds(n, prev)
  {
    FlatHidesNothing(prev, "root", n.mesh);
    FlatHidesNothing(prev, "plant", n.mesh);
    FlatHidesNothing(prev, "infrastructure", n.mesh);
  }

  lemma ChangedDiffers(n: Node, pairing: Dict, ids: NestedIds)
    requires Changed(n, pairing, ids).Ok?
    ensures Changed(n, pairing, ids) == Ok(pairing) && IdsOfPairing(n, pairing) != Ok(ids)
  {
  }

  lemma GuardHolds(n: Node, prev: Dict, s: StructureArgs)
    requires ResolvePairing(n, prev, s).Ok?
    ensures PrevIds(n, prev).Ok? && IdsOfPairing(n, ResolvePairing(n, prev, s).value) != PrevIds(n, prev)
  {
    var ids := PrevIds(n, prev).value;
    ChangedDiffers(n, Candidate(n, s, ids).value, ids);
  }

  /** A resolved pairing is never the stored prior pairing. */
  lemma PairingDiffers(n: Node, prev: Dict, s: StructureArgs, pairing: Dict)
    requires ResolvePairing(n, prev, s) == Ok(pairing)
    ensures pairing != Del(prev, FLAT)
  {
    GuardHolds(n, prev, s);
    SameIds(n, prev);
  }

  lemma NewPairing(n: Node, order: Dict, s: StructureArgs, id: string, name: Option<Json>) returns (pairing: Dict)
    requires IsSha(n.sha) && NewStructure(n, order, s).Ok? && NewStructure(n, order, s).value.value == (id, name)
    ensures NestedDoc(order, "structure").Ok? && pairing != Del(NestedDoc(order, "structure").value, FLAT)
    ensures id == JsonId(n, Obj(pairing)) && NewStructure(n, order, s).value.puts == [n.dumps(Obj(pairing))]
  {
    pairing := LinkedStructure(n, order, s).value.0;
    PairingDiffers(n, NestedDoc(order, "structure").value, s, pairing);
  }

  /** A step puts what its halves put, and the Order. */
  lemma AssemblePuts(n: Node, order: Dict, f: Result<Put<string>>, s: Result<Put<(string, Option<Json>)>>,
                     data: Result<string>)
    requires IsSha(n.sha) && Assemble(n, order, f, s, data).Ok?
    ensures var r := Assemble(n, order, f, s, data).value;
      && f.Ok? && s.Ok? && (forall b :: b in f.value.puts || b in s.value.puts ==> b in r.puts)
      && n.dumps(Obj(r.value.order)) in r.puts && r.value.orderId == JsonId(n, Obj(r.value.order))
  {
    var minted := MintOrder(n, order, f.value.value, s.value.value.0, data.value, s.value.value.1).value;
    assert minted.puts[1] == n.dumps(Obj(minted.value.order));
  }

  /** A reference to a digest that is read through a key which fixes that digest; other ids do not matter here. */
  ghost predicate Checked(m: Mesh, d: Dict, stem: string) {
    match RefId(d, stem, m.locators)
    case Ok(Some(id)) => IsNiOrDigest(id) ==> CommittingRef(m, d, stem)
    case _ => true
  }

  /** A step that asks for another Structure changes the Structure id, or fails. */
  lemma StructureMoves(n: Node, loads: Loads, bom: Dict, link: Link, loc: Locators)
    requires Ready(n) && StoredNoFlat(n.mesh) && StableRun(n.mesh, bom) && Linked(n, bom, link).Ok?
      && !CarriesStructure(link)
    requires JsonCodec(n, loads) && VerifiedMesh(n, loads) && Unforged(n.sha, Linked(n, bom, link).value.puts)
    requires StoredRun(n.mesh, bom).Some? ==> Checked(n.mesh, StoredRun(n.mesh, bom).value.1, "structure")
    ensures StoredRun(n.mesh, bom).Some?
    ensures RefId(Linked(n, bom, link).value.value.order, "structure", loc)
         != RefId(StoredRun(n.mesh, bom).value.1, "structure", n.mesh.locators)
  {
    LinkedStep(n, bom, link);
    var (invoice, order) := PriorRun(n, bom).value;
    var c := StepChoice(n, invoice, order, link);
    PriorIsStored(n, bom, 4);
    ChoiceStable(n, invoice, order, link, c);
    MintsReads(n, order, c, Linked(n, bom, link).value.value, loc);
    var pairing := NewPairing(n, order, link.s, c.structureId, c.name);
    PriorNested(n, bom, 4, "structure");
    StepAssembles(n, invoice, order, link);
    AssemblePuts(n, order, FunctionOf(n, order, link), StructureOf(n, order, link), Require(n, invoice, "data"));
    assert n.dumps(Obj(pairing)) in StructureOf(n, order, link).value.puts;
    assert NoCollision(n.sha, n.dumps(Obj(pairing)));
    NotTheOld(n, loads, Del(order, FLAT), pairing);
  }

  /** The id of a document other than the one a reference leads to is not the id of that reference. */
  lemma NotTheOld(n: Node, loads: Loads, order: Dict, pairing: Dict)
    requires IsSha(n.sha) && JsonCodec(n, loads) && VerifiedMesh(n, loads) && NoCollision(n.sha, n.dumps(Obj(pairing)))
    requires StoredDoc(n.mesh, order, "structure").Some? && StoredDoc(n.mesh, order, "structure").value != pairing
    requires Checked(n.mesh, order, "structure")
    ensures RefId(order, "structure", n.mesh.locators) != Ok(Some(JsonId(n, Obj(pairing))))
  {
    if RefId(order, "structure", n.mesh.locators) == Ok(Some(JsonId(n, Obj(pairing)))) {
      JsonIdStable(n, Obj(pairing));
      ReadIsWritten(n, loads, order, "structure", Obj(pairing));
      assert false;
    }
  }

  // --- the fields a step sets ------------------------------------------------------------------------

  lemma EbomFieldShape(k: string)
    requires EbomField(k)
    ensures |k| >= 17
  {
    assert |"function_sbom_uri"| == 17 && |"function_sbom_cid"| == 17 && |"structure_sbom_uri"| == 18;
    assert |"structure_sbom_cid"| == 18 && |"input_data_sbom_uri"| == 19 && |"input_data_sbom_cid"| == 19;
  }

  /** Neither the bag nor an eBOM field is a reference field of the three stems. */
  lemma NoMintStem(k: string, stem: string)
    requires (k == FLAT || EbomField(k)) && Plain(stem) && |stem| <= 9 && stem != "cid"
    ensures k != UriField(stem) && k != CidField(stem)
  {
    FieldEnds(stem);
    if EbomField(k) {
      EbomFieldShape(k);
    } else {
      assert FLAT[3] == 't' && "uri"[2] == 'i' && "_cid"[3] == 'd';
    }
  }

  /** No inspect bag and no stale eBOM reference gets into a minted Order. */
  lemma MintDrops(n: Node, prior: Dict, functionId: string, structureId: string, dataId: string, name: Option<Json>,
                  k: string)
    requires IsSha(n.sha) && MintOrder(n, prior, functionId, structureId, dataId, name).Ok?
      && (k == FLAT || EbomField(k))
    ensures !Has(MintOrder(n, prior, functionId, structureId, dataId, name).value.value.order, k)
  {
    var invoice := With(n, [], "data", dataId).value;
    PlainStems();
    assert |"function"| == 8 && |"structure"| == 9 && |"invoice"| == 7;
    NoMintStem(k, "function");
    NoMintStem(k, "structure");
    NoMintStem(k, "invoice");
    ShellFrame(n, prior, functionId, structureId, JsonId(n, Obj(invoice)), name, k);
    GetDel(prior, FLAT, k);
    StripFrame(Del(prior, FLAT), k);
    TailKeys(k);
  }

  lemma TailKeys(k: string)
    requires k == FLAT || EbomField(k)
    ensures k != "endpoint" && k != "structure_filepath"
  {
    assert |"endpoint"| == 8 && |"structure_filepath"| == 18 && "structure_filepath"[10] == 'f'
      && "structure_filepath"[17] == 'h';
    assert FLAT[0] == 'f' && |FLAT| == 4;
    assert "structure_sbom_uri"[10] == 's' && "structure_sbom_cid"[10] == 's';
    if EbomField(k) {
      EbomFieldShape(k);
    }
  }

  /** What the edit of the prior Order does to a field that is no reference field of the three stems. */
  lemma ShellFrame(n: Node, prior: Dict, functionId: string, structureId: string, invoiceId: string,
                   name: Option<Json>, k: string)
    requires OrderShell(n, prior, functionId, structureId, invoiceId, name).Ok?
    requires k != UriField("function") && k != CidField("function") && k != UriField("structure")
      && k != CidField("structure")
    requires k != UriField("invoice") && k != CidField("invoice")
    ensures Get(OrderShell(n, prior, functionId, structureId, invoiceId, name).value, k) ==
      if k == "endpoint" then Some(Str(n.endpoint))
      else if k == "structure_filepath" && name.Some? then name
      else Get(StripEbom(Del(prior, FLAT)), k)
  {
    var o0 := StripEbom(Del(prior, FLAT));
    WithFrame(n, o0, "function", functionId, k);
    var o1 := With(n, o0, "function", functionId).value;
    WithFrame(n, o1, "structure", structureId, k);
    var o2 := With(n, o1, "structure", structureId).value;
    WithFrame(n, o2, "invoice", invoiceId, k);
    var o3 := With(n, o2, "invoice", invoiceId).value;
    var o4 := if name.Some? then Set(o3, "structure_filepath", name.value) else o3;
    if name.Some? {
      GetSet(o3, "structure_filepath", name.value, k);
    }
    GetSet(o4, "endpoint", Str(n.endpoint), k);
  }

  /** The path a step was asked for: the given name, else the last component of the given directory. */
  function AskedPath(s: StructureArgs): string
    requires s.filepathName.Some? || s.filepath.Some?
  {
    if s.filepathName.Some? then s.filepathName.value else BaseName(s.filepath.value)
  }

  lemma TailFields(stem: string)
    ensures "endpoint" != UriField(stem) && "endpoint" != CidField(stem)
    ensures "structure_filepath" != UriField(stem) && "structure_filepath" != CidField(stem)
  {
    PlainStems();
    FieldEnds(stem);
  }

  /** The fields a step sets itself: the endpoint, a requested path, no bag and no stale eBOM reference. */
  lemma LinkFields(n: Node, bom: Dict, link: Link)
    requires IsSha(n.sha) && Linked(n, bom, link).Ok?
    ensures var order := Linked(n, bom, link).value.value.order;
      && Get(order, "endpoint") == Some(Str(n.endpoint))
      && (AsksPath(link) ==> Get(order, "structure_filepath") == Some(Str(AskedPath(link.s))))
      && !Has(order, FLAT)
      && (forall k :: EbomField(k) ==> !Has(order, k))
  {
    LinkedStep(n, bom, link);
    var (invoice, order) := PriorRun(n, bom).value;
    var c := StepChoice(n, invoice, order, link);
    MintSets(n, order, c, Linked(n, bom, link).value.value);
    if AsksPath(link) {
      AskedName(n, order, link, c.structureId, c.name);
    }
  }

  lemma AskedName(n: Node, order: Dict, link: Link, id: string, name: Option<Json>)
    requires IsSha(n.sha) && ChosenStructure(n, order, link, id, name) && AsksPath(link)
    ensures name == Some(Str(AskedPath(link.s)))
  {
    NewName(n, order, link.s, id, name);
  }

  lemma MintSets(n: Node, prior: Dict, c: Choice, m: Minted)
    requires IsSha(n.sha) && Mints(n, prior, c, m)
    ensures Get(m.order, "endpoint") == Some(Str(n.endpoint))
    ensures c.name.Some? ==> Get(m.order, "structure_filepath") == c.name
    ensures !Has(m.order, FLAT) && forall k :: EbomField(k) ==> !Has(m.order, k)
  {
    var invoiceId := JsonId(n, Obj(m.invoice));
    TailFields("function");
    TailFields("structure");
    TailFields("invoice");
    ShellFrame(n, prior, c.functionId, c.structureId, invoiceId, c.name, "endpoint");
    ShellFrame(n, prior, c.functionId, c.structureId, invoiceId, c.name, "structure_filepath");
    assert |"endpoint"| != |"structure_filepath"|;
    forall k | k == FLAT || EbomField(k) ensures !Has(m.order, k) {
      MintDrops(n, prior, c.functionId, c.structureId, c.dataId, c.name, k);
    }
  }
}
