/** A created Order, its run, and the link step taken from it, built from nothing but the documents that were put
    (cats/network/order.py): the laws about chains have instances. */
module CreatedRun {
  import opened AddressStore
  import opened Cas
  import opened ContentRef
  import opened Creation
  import opened FunctionChain
  import opened FunctionChange
  import opened FunctionRebuild
  import opened InspectTree
  import opened Json
  import opened Lineage
  import opened LineageChain
  import opened Order
  import opened Text
  import opened Wrappers

  // --- a node that holds some documents --------------------------------------------------------------

  /** The first of the documents with this digest. */
  function Find(sha: Sha, dumps: Json -> Bytes, docs: seq<Json>, digest: string): Result<Json> {
    if docs == [] then Err("CAS content not found")
    else if sha(dumps(docs[0])) == digest then Ok(docs[0])
    else Find(sha, dumps, docs[1..], digest)
  }

  function CatKey(sha: Sha, dumps: Json -> Bytes, docs: seq<Json>, key: string): Result<Json> {
    if Committing(key) then var digest :- FixedDigest(key); Find(sha, dumps, docs, digest)
    else Err("CAS content not found")
  }

  /** The node, reading these documents and nothing else. */
  function OnStore(m: Node, docs: seq<Json>): Node {
    m.(mesh := Mesh(key => CatKey(m.sha, m.dumps, docs, key), NO_LOCATORS, FLAT_STEM_ORDER))
  }

  lemma {:induction false} FindIs(sha: Sha, dumps: Json -> Bytes, docs: seq<Json>, digest: string)
    ensures var r := Find(sha, dumps, docs, digest); r.Ok? ==> r.value in docs && sha(dumps(r.value)) == digest
  {
    if docs != [] {
      FindIs(sha, dumps, docs[1..], digest);
    }
  }

  lemma {:induction false} Finds(m: Node, loads: Loads, docs: seq<Json>, j: Json)
    requires JsonCodec(m, loads) && NoCollision(m.sha, m.dumps(j)) && j in docs
    ensures Find(m.sha, m.dumps, docs, m.sha(m.dumps(j))) == Ok(j)
  {
    assert loads(m.dumps(docs[0])) == Ok(docs[0]) && loads(m.dumps(j)) == Ok(j);
    if docs[0] != j {
      Finds(m, loads, docs[1..], j);
    }
  }

  lemma StoreIsGood(m: Node, loads: Loads, docs: seq<Json>)
    requires Ready(m) && JsonCodec(m, loads) && forall j :: j in docs ==> NoFlat(j)
    ensures GoodNode(OnStore(m, docs), loads)
  {
    var n := OnStore(m, docs);
    forall key | n.mesh.cat(key).Ok? ensures NoFlat(n.mesh.cat(key).value) && StoreVerified(n, loads, key) {
      FindIs(m.sha, m.dumps, docs, FixedDigest(key).value);
      var j := n.mesh.cat(key).value;
      assert loads(m.dumps(j)) == n.mesh.cat(key) && FixedDigest(key) == Ok(n.sha(m.dumps(j)));
    }
    forall key | n.mesh.cat(key).Ok? && Committing(key)
      ensures exists b :: loads(b) == n.mesh.cat(key) && FixedDigest(key) == Ok(n.sha(b))
    {
      assert StoreVerified(n, loads, key);
    }
  }

  ghost predicate StoreVerified(n: Node, loads: Loads, key: string) {
    Committing(key) && exists b :: loads(b) == n.mesh.cat(key) && FixedDigest(key) == Ok(n.sha(b))
  }

  // --- where references lead -------------------------------------------------------------------------

  /** The document a reference leads to by a given key. */
  ghost predicate LeadsBy(n: Node, d: Dict, stem: string, key: string, inner: Dict) {
    RefKey(d, stem, n.mesh) == Ok(Some(key)) && n.mesh.cat(key) == Ok(Obj(inner))
  }

  ghost predicate LeadsNowhere(n: Node, d: Dict, stem: string) {
    RefKey(d, stem, n.mesh) == Ok(None)
  }

  /** The locator of a stored document. */
  function UriOf(m: Node, j: Json): string
    requires Ready(m)
  {
    CasUriPath(m.sha(m.dumps(j)), m.base);
    CasLdpUri(m.sha(m.dumps(j)), m.base).value
  }

  lemma UriFixes(m: Node, j: Json)
    requires Ready(m)
    ensures Committing(UriOf(m, j)) && FixedDigest(UriOf(m, j)) == Ok(m.sha(m.dumps(j)))
  {
    var hex := m.sha(m.dumps(j));
    CasUriPath(hex, m.base);
    CasUriCommits(hex, m.base);
    RawOfTrimmed(UriOf(m, j));
    assert (CAS_PATH + hex)[9..] == hex;
  }

  /** The document is in the store and cannot be mistaken for another. */
  ghost predicate Kept(m: Node, docs: seq<Json>, j: Json) {
    j in docs && NoCollision(m.sha, m.dumps(j))
  }

  /** A reference shows the locator of a kept document, and so leads to it. */
  lemma ShownLeads(m: Node, loads: Loads, docs: seq<Json>, d: Dict, stem: string, j: Json)
    requires Ready(m) && JsonCodec(m, loads) && Kept(m, docs, j) && RefUri(d, stem) == Some(UriOf(m, j))
    ensures j.Obj? ==> LeadsBy(OnStore(m, docs), d, stem, UriOf(m, j), j.fields)
  {
    UriFixes(m, j);
    Finds(m, loads, docs, j);
  }

  /** Different documents have different locators. */
  lemma UrisDiffer(m: Node, loads: Loads, j: Json, k: Json)
    requires Ready(m) && JsonCodec(m, loads) && NoCollision(m.sha, m.dumps(j)) && j != k
    ensures UriOf(m, j) != UriOf(m, k)
  {
    UriFixes(m, j);
    UriFixes(m, k);
    assert loads(m.dumps(j)) == Ok(j) && loads(m.dumps(k)) == Ok(k);
  }

  // --- what can be inspected -------------------------------------------------------------------------

  /** Inspecting the document to this depth succeeds. */
  ghost predicate Inspectable(d: Dict, depth: nat, m: Mesh) {
    forall visited :: Inspect(d, depth, visited, m).Ok?
  }

  /** The reference leads to something that can be inspected in turn, or nowhere. */
  ghost predicate Followed(d: Dict, stem: string, depth: nat, m: Mesh)
    requires depth > 0
  {
    var key := RefKey(d, stem, m);
    && key.Ok?
    && (key.value.Some? ==> m.cat(key.value.value).Ok?)
    && (key.value.Some? && m.cat(key.value.value).value.Obj? ==>
          Inspectable(m.cat(key.value.value).value.fields, depth - 1, m))
  }

  lemma AllFollowed(d: Dict, depth: nat, m: Mesh)
    requires depth > 0 && forall stem :: stem in m.stems ==> Followed(d, stem, depth, m)
    ensures Inspectable(d, depth, m)
  {
    forall visited ensures Inspect(d, depth, visited, m).Ok? {
      BagOk(m.stems, d, depth, visited, m);
    }
  }

  lemma {:induction false} BagOk(stems: seq<string>, d: Dict, depth: nat, visited: set<string>, m: Mesh)
    requires depth > 0 && forall stem :: stem in stems ==> Followed(d, stem, depth, m)
    ensures Bag(stems, d, depth, visited, m).Ok?
    decreases |stems|
  {
    if stems != [] {
      assert Followed(d, stems[0], depth, m);
      NestedOk(stems[0], d, depth, visited, m);
      BagOk(stems[1..], d, depth, visited, m);
    }
  }

  lemma NestedOk(stem: string, d: Dict, depth: nat, visited: set<string>, m: Mesh)
    requires depth > 0 && Followed(d, stem, depth, m)
    ensures Nested(stem, d, depth, visited, m).Ok?
  {
  }

  lemma LeadsInspectable(n: Node, d: Dict, stem: string, key: string, depth: nat, inner: Dict)
    requires LeadsBy(n, d, stem, key, inner) && Inspectable(inner, depth, n.mesh)
    ensures Followed(d, stem, depth + 1, n.mesh)
  {
  }

  /** A document without references to follow. */
  ghost predicate Leaf(n: Node, d: Dict) {
    forall stem :: stem in n.mesh.stems ==> LeadsNowhere(n, d, stem)
  }

  lemma LeafInspectable(n: Node, d: Dict, depth: nat)
    requires Leaf(n, d)
    ensures Inspectable(d, depth, n.mesh)
  {
    if depth > 0 {
      forall stem | stem in n.mesh.stems ensures Followed(d, stem, depth, n.mesh) {
        assert LeadsNowhere(n, d, stem);
      }
      AllFollowed(d, depth, n.mesh);
    }
  }

  // --- the documents of a run ------------------------------------------------------------------------

  datatype RunDocs = RunDocs(bom: Dict, out: Dict, order: Dict, fn: Dict, pairing: Dict, invoice: Dict)

  /** The references of an Order that are followed. */
  ghost predicate OrderLinks(n: Node, s: RunDocs, function_: string, structure: string, invoice: string) {
    && LeadsBy(n, s.order, "function", function_, s.fn) && LeadsBy(n, s.order, "structure", structure, s.pairing)
    && LeadsBy(n, s.order, "invoice", invoice, s.invoice)
    && forall stem :: stem in n.mesh.stems && stem != "function" && stem != "structure" && stem != "invoice" ==>
         LeadsNowhere(n, s.order, stem)
  }

  /** Those of the Invoice a run puts out. */
  ghost predicate OutLinks(n: Node, s: RunDocs, order: string) {
    && LeadsBy(n, s.out, "order", order, s.order)
    && forall stem :: stem in n.mesh.stems && stem != "order" ==> LeadsNowhere(n, s.out, stem)
  }

  lemma OrderInspectable(n: Node, s: RunDocs, function_: string, structure: string, invoice: string, depth: nat)
    requires OrderLinks(n, s, function_, structure, invoice)
    requires Leaf(n, s.fn) && Leaf(n, s.pairing) && Leaf(n, s.invoice)
    ensures Inspectable(s.order, depth + 1, n.mesh)
  {
    LeafInspectable(n, s.fn, depth);
    LeafInspectable(n, s.pairing, depth);
    LeafInspectable(n, s.invoice, depth);
    forall stem | stem in n.mesh.stems ensures Followed(s.order, stem, depth + 1, n.mesh) {
      if stem == "function" {
        LeadsInspectable(n, s.order, stem, function_, depth, s.fn);
      } else if stem == "structure" {
        LeadsInspectable(n, s.order, stem, structure, depth, s.pairing);
      } else if stem == "invoice" {
        LeadsInspectable(n, s.order, stem, invoice, depth, s.invoice);
      } else {
        assert LeadsNowhere(n, s.order, stem);
      }
    }
    AllFollowed(s.order, depth + 1, n.mesh);
  }

  lemma OutInspectable(n: Node, s: RunDocs, order: string, depth: nat)
    requires OutLinks(n, s, order) && Inspectable(s.order, depth, n.mesh)
    ensures Inspectable(s.out, depth + 1, n.mesh)
  {
    forall stem | stem in n.mesh.stems ensures Followed(s.out, stem, depth + 1, n.mesh) {
      if stem == "order" {
        LeadsInspectable(n, s.out, stem, order, depth, s.order);
      } else {
        assert LeadsNowhere(n, s.out, stem);
      }
    }
    AllFollowed(s.out, depth + 1, n.mesh);
  }

  /** A followed reference is nested, unless its key is on the path. */
  lemma LeadsNested(n: Node, d: Dict, out: Dict, depth: nat, visited: set<string>, stem: string, key: string,
                    inner: Dict) returns (nested: Dict)
    requires depth > 0 && !Has(d, FLAT) && !Has(inner, FLAT) && Inspect(d, depth, visited, n.mesh) == Ok(out)
    requires RefKey(d, stem, n.mesh) == Ok(Some(key)) && n.mesh.cat(key) == Ok(Obj(inner)) && stem in n.mesh.stems
    requires key !in visited
    ensures At(out, [stem]) == Some(Obj(nested)) && Inspect(inner, depth - 1, visited + {key}, n.mesh) == Ok(nested)
    ensures Del(nested, FLAT) == inner
  {
    NestedIff(d, depth, visited, n.mesh, stem);
    nested := ChildBy(d, out, depth, visited, n.mesh, stem, key, inner);
    EraseTop(inner, depth - 1, visited + {key}, n.mesh);
  }

  lemma NestsTwice(n: Node, d: Dict, top: Dict, depth: nat, a: string, stem: string, b: string, inner: Dict,
                   stem': string, c: string, inner': Dict) returns (nested: Dict, nested': Dict)
    requires depth > 1 && stem in n.mesh.stems && stem' in n.mesh.stems
    requires !Has(d, FLAT) && !Has(inner, FLAT) && !Has(inner', FLAT) && Inspect(d, depth, {a}, n.mesh) == Ok(top)
    requires LeadsBy(n, d, stem, b, inner) && LeadsBy(n, inner, stem', c, inner') && a != b && a != c && b != c
    ensures At(top, [stem]) == Some(Obj(nested)) && Del(nested, FLAT) == inner
    ensures At(nested, [stem']) == Some(Obj(nested')) && Del(nested', FLAT) == inner'
  {
    nested := LeadsNested(n, d, top, depth, {a}, stem, b, inner);
    nested' := LeadsNested(n, inner, nested, depth - 1, {a} + {b}, stem', c, inner');
  }

  /** The run can be read, with Order and Function nested in it. */
  lemma RunReads(n: Node, s: RunDocs, k: RunKeys, depth: nat)
    returns (invoice: Dict, order: Dict, fn: Dict)
    requires depth > 1 && "order" in n.mesh.stems && "function" in n.mesh.stems && RunPath(n, s, k, depth)
    ensures RunAtDepth(n, s.bom, depth + 1) == Ok((invoice, order))
    ensures Del(invoice, FLAT) == s.out && Del(order, FLAT) == s.order
    ensures At(order, ["function"]) == Some(Obj(fn)) && Del(fn, FLAT) == s.fn
  {
    assert Inspect(s.out, depth, {k.out}, n.mesh).Ok?;
    EraseTop(s.out, depth, {k.out}, n.mesh);
    invoice := Inspect(s.out, depth, {k.out}, n.mesh).value;
    order, fn := NestsTwice(n, s.out, invoice, depth, k.out, "order", k.order, s.order, "function", k.fn, s.fn);
    RunIs(n, s.bom, k.out, s.out, depth, invoice, order);
  }

  lemma RunIs(n: Node, bom: Dict, key: string, out: Dict, depth: nat, invoice: Dict, order: Dict)
    requires RefKey(bom, "invoice", n.mesh) == Ok(Some(key)) && n.mesh.cat(key) == Ok(Obj(out))
    requires LeadsNowhere(n, bom, "log")
    requires Inspect(out, depth, {key}, n.mesh) == Ok(invoice) && At(invoice, ["order"]) == Some(Obj(order))
    ensures RunAtDepth(n, bom, depth + 1) == Ok((invoice, order))
  {
    assert FlattenBomInvoice(bom, depth + 1, n.mesh) == Ok(Obj(invoice));
    assert FlattenBomLog(bom, depth + 1, n.mesh) == Ok(None);
  }

  // --- what written documents refer to ---------------------------------------------------------------

  /** No reference under this stem. */
  ghost predicate Silent(d: Dict, stem: string) {
    RefUri(d, stem).None? && RefId(d, stem, NO_LOCATORS) == Ok(None)
  }

  lemma SilentNowhere(m: Node, docs: seq<Json>, d: Dict, stem: string)
    requires Silent(d, stem)
    ensures LeadsNowhere(OnStore(m, docs), d, stem)
  {
  }

  /** The reference shows the locator of this document. */
  ghost predicate Shows(m: Node, d: Dict, stem: string, j: Json)
    requires Ready(m)
  {
    RefUri(d, stem) == Some(UriOf(m, j))
  }

  lemma WithShows(m: Node, d: Dict, stem: string, j: Json)
    requires Ready(m)
    ensures With(m, d, stem, JsonId(m, j)).Ok? && Shows(m, With(m, d, stem, JsonId(m, j)).value, stem, j)
  {
    WrittenUri(m, d, stem, j);
  }

  lemma NoFlatField(stem: string)
    ensures FLAT != UriField(stem) && FLAT != CidField(stem)
  {
    FieldEnds(stem);
    assert FLAT[3] == 't' && |FLAT| == 4;
  }

  /** Writing a reference leaves other stems silent, and adds no bag. */
  lemma WithLeaves(m: Node, d: Dict, stem: string, id: string, other: string)
    requires Plain(stem) && With(m, d, stem, id).Ok?
    ensures Plain(other) && other != stem && Silent(d, other) ==> Silent(With(m, d, stem, id).value, other)
    ensures Plain(other) && other != stem ==> RefUri(With(m, d, stem, id).value, other) == RefUri(d, other)
    ensures !Has(d, FLAT) ==> !Has(With(m, d, stem, id).value, FLAT)
  {
    NoFlatField(stem);
    WithFrame(m, d, stem, id, FLAT);
    if Plain(other) && other != stem {
      WithKeeps(m, d, stem, id, other, NO_LOCATORS);
    }
  }

  lemma {:induction false} FillSlotsNoFlat(m: Node, slots: Slots, source: string, prev: Dict, doc: Dict)
    requires IsSha(m.sha) && GoodSlots(slots) && FillSlots(m, slots, source, prev, doc).Ok? && !Has(doc, FLAT)
    ensures !Has(FillSlots(m, slots, source, prev, doc).value.value, FLAT)
    decreases |slots|
  {
    if slots != [] {
      var (stem, replacement) := slots[0];
      var id := SlotId(m, stem, replacement, source, prev).value.value;
      WithLeaves(m, doc, stem, id, stem);
      FillSlotsNoFlat(m, slots[1..], source, prev, With(m, doc, stem, id).value);
    }
  }

  /** The Invoice a run puts out: its data and the Order it executed. */
  function OutInvoice(m: Node, dataId: string, orderId: string): Result<Dict> {
    var d :- With(m, [], "data", dataId);
    With(m, d, "order", orderId)
  }

  lemma OutShows(m: Node, dataId: string, order: Dict)
    requires Ready(m) && Stable(dataId)
    ensures OutInvoice(m, dataId, JsonId(m, Obj(order))).Ok?
    ensures var out := OutInvoice(m, dataId, JsonId(m, Obj(order))).value;
      && Shows(m, out, "order", Obj(order)) && !Has(out, FLAT)
      && RefId(out, "data", NO_LOCATORS) == Ok(Some(dataId))
      && RefId(out, "order", NO_LOCATORS) == Ok(Some(JsonId(m, Obj(order))))
  {
    PlainStems();
    var orderId := JsonId(m, Obj(order));
    WithReads(m, [], "data", dataId, NO_LOCATORS);
    var d := With(m, [], "data", dataId).value;
    WithLeaves(m, [], "data", dataId, "order");
    JsonIdStable(m, Obj(order));
    WithReads(m, d, "order", orderId, NO_LOCATORS);
    WithKeeps(m, d, "order", orderId, "data", NO_LOCATORS);
    WithShows(m, d, "order", Obj(order));
    WithLeaves(m, d, "order", orderId, "order");
  }

  lemma OutSilent(m: Node, dataId: string, orderId: string, stem: string)
    requires OutInvoice(m, dataId, orderId).Ok? && Plain(stem) && stem != "data" && stem != "order"
    ensures Silent(OutInvoice(m, dataId, orderId).value, stem)
  {
    PlainStems();
    WithLeaves(m, [], "data", dataId, stem);
    WithLeaves(m, With(m, [], "data", dataId).value, "order", orderId, stem);
  }

  lemma ShellLacks(m: Node, q: OrderArgs, k: string)
    requires EndsWith(k, "uri") || EndsWith(k, "_cid") || k == "content_id" || k == FLAT
    ensures Get(NewShell(m, q), k).None?
  {
    ShellFields();
    LacksKey(NewShell(m, q), k);
  }

  lemma {:induction false} LacksKey(d: Dict, k: string)
    requires forall i :: 0 <= i < |d| ==> d[i].key != k
    ensures Get(d, k).None?
  {
    if d != [] {
      LacksKey(d[1..], k);
    }
  }

  lemma ShellSilent(m: Node, q: OrderArgs, stem: string)
    ensures Silent(NewShell(m, q), stem) && !Has(NewShell(m, q), FLAT)
  {
    FieldEnds(stem);
    ShellLacks(m, q, UriField(stem));
    ShellLacks(m, q, CidField(stem));
    ShellLacks(m, q, "content_id");
    ShellLacks(m, q, FLAT);
    SilentFields(NewShell(m, q), stem);
  }

  lemma SilentFields(d: Dict, stem: string)
    requires Get(d, UriField(stem)).None? && Get(d, CidField(stem)).None? && Get(d, "content_id").None?
    ensures Silent(d, stem)
  {
  }

  lemma OrderShows(m: Node, q: OrderArgs, fn: Json, pairing: Json, invoice: Json)
    requires Ready(m)
    ensures NewOrder(m, q, JsonId(m, fn), JsonId(m, pairing), JsonId(m, invoice)).Ok?
    ensures var order := NewOrder(m, q, JsonId(m, fn), JsonId(m, pairing), JsonId(m, invoice)).value;
      && Shows(m, order, "function", fn) && Shows(m, order, "structure", pairing) && Shows(m, order, "invoice", invoice)
      && !Has(order, FLAT)
  {
    PlainStems();
    var o0 := NewShell(m, q);
    ShellSilent(m, q, "function");
    WithShows(m, o0, "function", fn);
    WithLeaves(m, o0, "function", JsonId(m, fn), "structure");
    var o1 := With(m, o0, "function", JsonId(m, fn)).value;
    WithShows(m, o1, "structure", pairing);
    WithLeaves(m, o1, "structure", JsonId(m, pairing), "function");
    var o2 := With(m, o1, "structure", JsonId(m, pairing)).value;
    WithShows(m, o2, "invoice", invoice);
    WithLeaves(m, o2, "invoice", JsonId(m, invoice), "function");
    WithLeaves(m, o2, "invoice", JsonId(m, invoice), "structure");
  }

  lemma OrderSilent(m: Node, q: OrderArgs, functionId: string, structureId: string, invoiceId: string, stem: string)
    requires NewOrder(m, q, functionId, structureId, invoiceId).Ok? && Plain(stem)
    requires stem != "function" && stem != "structure" && stem != "invoice"
    ensures Silent(NewOrder(m, q, functionId, structureId, invoiceId).value, stem)
  {
    PlainStems();
    ShellSilent(m, q, stem);
    WithLeaves(m, NewShell(m, q), "function", functionId, stem);
    var o1 := With(m, NewShell(m, q), "function", functionId).value;
    WithLeaves(m, o1, "structure", structureId, stem);
    WithLeaves(m, With(m, o1, "structure", structureId).value, "invoice", invoiceId, stem);
  }

  lemma PairShows(m: Node, p: FunctionParts)
    requires Ready(m) && PairFunction(m, p).Ok?
    ensures var fn := PairFunction(m, p).value;
      Shows(m, fn, "process", Obj(p.process)) && Shows(m, fn, "infrafunction", Obj(p.infra)) && !Has(fn, FLAT)
  {
    FunctionStems();
    var process, infra := JsonId(m, Obj(p.process)), JsonId(m, Obj(p.infra));
    WithShows(m, [], "process", Obj(p.process));
    var d1 := With(m, [], "process", process).value;
    WithLeaves(m, [], "process", process, "process");
    WithShows(m, d1, "infrafunction", Obj(p.infra));
    WithLeaves(m, d1, "infrafunction", infra, "process");
    var d2 := With(m, d1, "infrafunction", infra).value;
    WithLeaves(m, d2, "process_source", p.processSource, "process");
    WithLeaves(m, d2, "process_source", p.processSource, "infrafunction");
    var d3 := With(m, d2, "process_source", p.processSource).value;
    WithLeaves(m, d3, "infrafunction_source", p.infraSource, "process");
    WithLeaves(m, d3, "infrafunction_source", p.infraSource, "infrafunction");
  }

  lemma PairSilent(m: Node, p: FunctionParts, stem: string)
    requires IsSha(m.sha) && PairFunction(m, p).Ok? && Plain(stem) && stem != "process" && stem != "infrafunction"
    requires stem != "process_source" && stem != "infrafunction_source"
    ensures Silent(PairFunction(m, p).value, stem)
  {
    FunctionStems();
    var process, infra := JsonId(m, Obj(p.process)), JsonId(m, Obj(p.infra));
    var d1 := With(m, [], "process", process).value;
    WithLeaves(m, [], "process", process, stem);
    var d2 := With(m, d1, "infrafunction", infra).value;
    WithLeaves(m, d1, "infrafunction", infra, stem);
    WithLeaves(m, d2, "process_source", p.processSource, stem);
    WithLeaves(m, With(m, d2, "process_source", p.processSource).value, "infrafunction_source", p.infraSource, stem);
  }

  /** None of the stems that are followed is one under which a Function or an Invoice keeps its own content. */
  lemma FlatStems(stem: string)
    requires stem in FLAT_STEM_ORDER
    ensures Plain(stem) && stem != "data" && stem != "process" && stem != "infrafunction"
    ensures stem != "process_source" && stem != "infrafunction_source"
    ensures stem != "root" && stem != "plant" && stem != "infrastructure"
  {
    PlainFlatStem(stem);
  }

  lemma PlainFlatStem(stem: string)
    requires stem in FLAT_STEM_ORDER
    ensures Plain(stem)
  {
    FlatStemEnds(stem);
    assert "_uri"[3] == 'i' && "_cid"[2] == 'i' && "_cid"[3] == 'd';
  }

  lemma FlatStemEnds(stem: string)
    requires stem in FLAT_STEM_ORDER
    ensures |stem| > 1 && stem[|stem| - 1] != 'i' && stem[|stem| - 2] != 'i'
  {
  }

  // --- the documents of a created run ----------------------------------------------------------------

  /** The Structure pairing refers to nothing that is followed. `structure_pairing` returns one with the three nested
      references only. */
  ghost predicate QuietPairing(d: Dict) {
    !Has(d, FLAT) && forall stem :: stem in FLAT_STEM_ORDER ==> Silent(d, stem)
  }

  lemma QuietWith(m: Node, d: Dict, stem: string, id: string)
    requires QuietPairing(d) && stem in {"root", "plant", "infrastructure"} && With(m, d, stem, id).Ok?
    ensures QuietPairing(With(m, d, stem, id).value)
  {
    PlainStems();
    forall other | other in FLAT_STEM_ORDER ensures Silent(With(m, d, stem, id).value, other) {
      FlatStems(other);
      WithLeaves(m, d, stem, id, other);
    }
    WithLeaves(m, d, stem, id, stem);
  }

  lemma RewrittenQuiet(m: Node, d: Dict, stem: string)
    requires QuietPairing(d) && stem in {"root", "plant", "infrastructure"} && Rewritten(m, d, stem).Ok?
    ensures QuietPairing(Rewritten(m, d, stem).value)
  {
    var current := RefId(d, stem, m.mesh.locators).value;
    if current.Some? && current.value != [] {
      QuietWith(m, d, stem, current.value);
    }
  }

  /** A creation keeps it so. */
  lemma CreatedQuiet(m: Node, q: OrderArgs)
    requires CreatedPairing(m, q).Ok? && QuietPairing(m.pairing(q.filepath).value)
    ensures QuietPairing(CreatedPairing(m, q).value)
  {
    var p0 := m.pairing(q.filepath).value;
    var p1 := Rewritten(m, p0, "root").value;
    RewrittenQuiet(m, p0, "root");
    RewrittenQuiet(m, p1, "plant");
    RewrittenQuiet(m, Rewritten(m, p1, "plant").value, "infrastructure");
  }

  lemma SilentLeaf(m: Node, docs: seq<Json>, d: Dict)
    requires forall stem :: stem in FLAT_STEM_ORDER ==> Silent(d, stem)
    ensures Leaf(OnStore(m, docs), d)
  {
    forall stem | stem in FLAT_STEM_ORDER ensures LeadsNowhere(OnStore(m, docs), d, stem) {
      SilentNowhere(m, docs, d, stem);
    }
  }

  lemma FunctionLeaf(m: Node, docs: seq<Json>, p: FunctionParts)
    requires Ready(m) && PairFunction(m, p).Ok?
    ensures Leaf(OnStore(m, docs), PairFunction(m, p).value)
  {
    forall stem | stem in FLAT_STEM_ORDER ensures Silent(PairFunction(m, p).value, stem) {
      FlatStems(stem);
      PairSilent(m, p, stem);
    }
    SilentLeaf(m, docs, PairFunction(m, p).value);
  }

  lemma InvoiceLeaf(m: Node, docs: seq<Json>, dataId: string)
    requires With(m, [], "data", dataId).Ok?
    ensures Leaf(OnStore(m, docs), With(m, [], "data", dataId).value) && !Has(With(m, [], "data", dataId).value, FLAT)
  {
    var invoice := With(m, [], "data", dataId).value;
    PlainStems();
    forall stem | stem in FLAT_STEM_ORDER ensures Silent(invoice, stem) {
      FlatStems(stem);
      WithLeaves(m, [], "data", dataId, stem);
    }
    SilentLeaf(m, docs, invoice);
    WithLeaves(m, [], "data", dataId, "data");
  }

  lemma OutFollowed(m: Node, loads: Loads, docs: seq<Json>, dataId: string, s: RunDocs)
    requires Ready(m) && JsonCodec(m, loads) && Stable(dataId) && Kept(m, docs, Obj(s.order))
    requires OutInvoice(m, dataId, JsonId(m, Obj(s.order))) == Ok(s.out)
    ensures OutLinks(OnStore(m, docs), s, UriOf(m, Obj(s.order)))
  {
    OutShows(m, dataId, s.order);
    ShownLeads(m, loads, docs, s.out, "order", Obj(s.order));
    forall stem | stem in FLAT_STEM_ORDER && stem != "order" ensures LeadsNowhere(OnStore(m, docs), s.out, stem) {
      FlatStems(stem);
      OutSilent(m, dataId, JsonId(m, Obj(s.order)), stem);
      SilentNowhere(m, docs, s.out, stem);
    }
  }

  lemma OrderFollowed(m: Node, loads: Loads, docs: seq<Json>, q: OrderArgs, s: RunDocs)
    requires Ready(m) && JsonCodec(m, loads)
    requires Kept(m, docs, Obj(s.fn)) && Kept(m, docs, Obj(s.pairing)) && Kept(m, docs, Obj(s.invoice))
    requires NewOrder(m, q, JsonId(m, Obj(s.fn)), JsonId(m, Obj(s.pairing)), JsonId(m, Obj(s.invoice))) == Ok(s.order)
    ensures OrderLinks(OnStore(m, docs), s, UriOf(m, Obj(s.fn)), UriOf(m, Obj(s.pairing)), UriOf(m, Obj(s.invoice)))
    ensures !Has(s.order, FLAT)
  {
    OrderShows(m, q, Obj(s.fn), Obj(s.pairing), Obj(s.invoice));
    ShownLeads(m, loads, docs, s.order, "function", Obj(s.fn));
    ShownLeads(m, loads, docs, s.order, "structure", Obj(s.pairing));
    ShownLeads(m, loads, docs, s.order, "invoice", Obj(s.invoice));
    forall stem | stem in FLAT_STEM_ORDER && stem != "function" && stem != "structure" && stem != "invoice"
      ensures LeadsNowhere(OnStore(m, docs), s.order, stem)
    {
      FlatStems(stem);
      OrderSilent(m, q, JsonId(m, Obj(s.fn)), JsonId(m, Obj(s.pairing)), JsonId(m, Obj(s.invoice)), stem);
      SilentNowhere(m, docs, s.order, stem);
    }
  }

  lemma BomFollowed(m: Node, loads: Loads, docs: seq<Json>, s: RunDocs)
    requires Ready(m) && JsonCodec(m, loads) && Kept(m, docs, Obj(s.out))
    requires With(m, [], "invoice", JsonId(m, Obj(s.out))) == Ok(s.bom)
    ensures LeadsBy(OnStore(m, docs), s.bom, "invoice", UriOf(m, Obj(s.out)), s.out)
    ensures LeadsNowhere(OnStore(m, docs), s.bom, "log")
  {
    PlainStems();
    WithShows(m, [], "invoice", Obj(s.out));
    ShownLeads(m, loads, docs, s.bom, "invoice", Obj(s.out));
    assert FLAT_STEM_ORDER[14] == "log" && "log" in FLAT_STEM_ORDER;
    FlatStems("log");
    WithLeaves(m, [], "invoice", JsonId(m, Obj(s.out)), "log");
    SilentNowhere(m, docs, s.bom, "log");
  }

  /** The Invoice put out, the Order and the Function are three documents. */
  lemma DocsDiffer(m: Node, dataId: string, q: OrderArgs, s: RunDocs, p: FunctionParts)
    requires Ready(m) && Stable(dataId) && OutInvoice(m, dataId, JsonId(m, Obj(s.order))) == Ok(s.out)
    requires NewOrder(m, q, JsonId(m, Obj(s.fn)), JsonId(m, Obj(s.pairing)), JsonId(m, Obj(s.invoice))) == Ok(s.order)
    requires PairFunction(m, p) == Ok(s.fn)
    ensures s.out != s.order && s.out != s.fn && s.order != s.fn
  {
    PlainStems();
    FunctionStems();
    OrderShows(m, q, Obj(s.fn), Obj(s.pairing), Obj(s.invoice));
    PairShows(m, p);
    OutSilent(m, dataId, JsonId(m, Obj(s.order)), "function");
    OutSilent(m, dataId, JsonId(m, Obj(s.order)), "process");
    PairSilent(m, p, "function");
  }

  /** The documents of the run of a created Order that put out this data. */
  ghost predicate RunOf(m: Node, q: OrderArgs, dataId: string, s: RunDocs, p: FunctionParts)
    requires IsSha(m.sha)
  {
    && With(m, [], "invoice", JsonId(m, Obj(s.out))) == Ok(s.bom)
    && OutInvoice(m, dataId, JsonId(m, Obj(s.order))) == Ok(s.out)
    && NewOrder(m, q, JsonId(m, Obj(s.fn)), JsonId(m, Obj(s.pairing)), JsonId(m, Obj(s.invoice))) == Ok(s.order)
    && PairFunction(m, p) == Ok(s.fn) && With(m, [], "data", q.dataId) == Ok(s.invoice)
  }

  /** All of them but the BOM, which is given, are kept. */
  ghost predicate AllKept(m: Node, docs: seq<Json>, s: RunDocs) {
    && Kept(m, docs, Obj(s.out)) && Kept(m, docs, Obj(s.order)) && Kept(m, docs, Obj(s.fn))
    && Kept(m, docs, Obj(s.pairing)) && Kept(m, docs, Obj(s.invoice))
  }

  /** The keys on the path through a run. */
  datatype RunKeys = RunKeys(out: string, order: string, fn: string)

  /** The run can be followed to this depth. */
  ghost predicate RunPath(n: Node, s: RunDocs, k: RunKeys, depth: nat) {
    && LeadsBy(n, s.bom, "invoice", k.out, s.out) && LeadsNowhere(n, s.bom, "log")
    && LeadsBy(n, s.out, "order", k.order, s.order) && LeadsBy(n, s.order, "function", k.fn, s.fn)
    && Inspectable(s.out, depth, n.mesh)
    && !Has(s.out, FLAT) && !Has(s.order, FLAT) && !Has(s.fn, FLAT)
    && k.out != k.order && k.out != k.fn && k.order != k.fn
  }

  lemma RunInspectable(m: Node, loads: Loads, q: OrderArgs, dataId: string, s: RunDocs, p: FunctionParts,
                       docs: seq<Json>, depth: nat)
    requires Ready(m) && JsonCodec(m, loads) && Stable(dataId) && QuietPairing(s.pairing)
    requires RunOf(m, q, dataId, s, p) && AllKept(m, docs, s)
    ensures Inspectable(s.out, depth + 2, OnStore(m, docs).mesh)
  {
    var n := OnStore(m, docs);
    OutFollowed(m, loads, docs, dataId, s);
    OrderFollowed(m, loads, docs, q, s);
    FunctionLeaf(m, docs, p);
    SilentLeaf(m, docs, s.pairing);
    InvoiceLeaf(m, docs, q.dataId);
    OrderInspectable(n, s, UriOf(m, Obj(s.fn)), UriOf(m, Obj(s.pairing)), UriOf(m, Obj(s.invoice)), depth);
    OutInspectable(n, s, UriOf(m, Obj(s.order)), depth + 1);
  }

  lemma RunFollowed(m: Node, loads: Loads, q: OrderArgs, dataId: string, s: RunDocs, p: FunctionParts, docs: seq<Json>,
                    depth: nat) returns (k: RunKeys)
    requires depth > 1 && Ready(m) && JsonCodec(m, loads) && Stable(dataId) && QuietPairing(s.pairing)
    requires RunOf(m, q, dataId, s, p) && AllKept(m, docs, s)
    ensures RunPath(OnStore(m, docs), s, k, depth)
    ensures StoredRun(OnStore(m, docs).mesh, s.bom) == Some((s.out, s.order))
  {
    BomFollowed(m, loads, docs, s);
    OutFollowed(m, loads, docs, dataId, s);
    OutShows(m, dataId, s.order);
    OrderFollowed(m, loads, docs, q, s);
    PairShows(m, p);
    DocsDiffer(m, dataId, q, s, p);
    UrisDiffer(m, loads, Obj(s.out), Obj(s.order));
    UrisDiffer(m, loads, Obj(s.out), Obj(s.fn));
    UrisDiffer(m, loads, Obj(s.order), Obj(s.fn));
    RunInspectable(m, loads, q, dataId, s, p, docs, depth - 2);
    RunStored(OnStore(m, docs), s, UriOf(m, Obj(s.out)), UriOf(m, Obj(s.order)));
    k := RunKeys(UriOf(m, Obj(s.out)), UriOf(m, Obj(s.order)), UriOf(m, Obj(s.fn)));
  }

  lemma RunStored(n: Node, s: RunDocs, a: string, b: string)
    requires LeadsBy(n, s.bom, "invoice", a, s.out) && LeadsBy(n, s.out, "order", b, s.order)
    ensures StoredRun(n.mesh, s.bom) == Some((s.out, s.order))
  {
  }

  /** And linked again without replacements. */
  lemma RelinkOk(n: Node, bom: Dict, invoice: Dict, order: Dict, fn: Dict, r: Recipe, dataId: string,
                 structureId: string)
    requires Ready(n) && PriorRun(n, bom) == Ok((invoice, order)) && NestedDoc(order, "function") == Ok(fn)
    requires Makes(r, Del(fn, FLAT)) && Alike(n, r.n)
    requires CatStem(n, Del(fn, FLAT), "process") == Ok(r.parts.process)
      && CatStem(n, Del(fn, FLAT), "infrafunction") == Ok(r.parts.infra)
    requires Require(n, invoice, "data") == Ok(dataId) && Require(n, order, "structure") == Ok(structureId)
    requires Stable(dataId) && Stable(structureId)
    ensures Linked(n, bom, ByProcess(NO_REPLACEMENTS)).Ok?
  {
    var f, doc := NO_REPLACEMENTS, Del(fn, FLAT);
    PairFunctionReads(r.n, r.parts, n.mesh.locators);
    SourceRead(n, doc, "process_source", r.parts.processSource);
    SourceRead(n, doc, "infrafunction_source", r.parts.infraSource);
    NothingNewSameId(n, doc, f, r);
    RebuildWithoutBag(n, fn, f);
    var functionId := RebuildFunction(n, fn, f).value.value;
    JsonIdStable(n, Obj(doc));
    MintedReads(n, order, functionId, structureId, dataId, None, NO_LOCATORS);
  }

  // --- the run of a created Order --------------------------------------------------------------------

  /** A creation whose documents cannot be mistaken for others, and the data its run puts out. */
  ghost predicate CanRun(m: Node, loads: Loads, q: OrderArgs, dataId: string) {
    && Ready(m) && JsonCodec(m, loads) && CanonicalArgs(q) && Stable(dataId)
    && CreateOrder(m, q).Ok? && Unforged(m.sha, CreateOrder(m, q).value.puts)
    && m.pairing(q.filepath).Ok? && QuietPairing(m.pairing(q.filepath).value)
    && var out := OutInvoice(m, dataId, CreateOrder(m, q).value.value.orderId);
       out.Ok? ==> NoCollision(m.sha, m.dumps(Obj(out.value)))
  }

  lemma MintedIsNew(m: Node, q: OrderArgs)
    requires IsSha(m.sha) && CreateOrder(m, q).Ok? && CreatedPairing(m, q).Ok?
    ensures var r := CreateOrder(m, q).value.value;
      && With(m, [], "data", q.dataId) == Ok(r.invoice) && r.orderId == JsonId(m, Obj(r.order))
      && NewOrder(m, q, JsonId(m, Obj(CreatedFunction(m, q))), JsonId(m, Obj(CreatedPairing(m, q).value)),
                  JsonId(m, Obj(r.invoice))) == Ok(r.order)
  {
    CreatedOf(m, q);
  }

  /** The documents of the run. */
  lemma DocsOf(m: Node, loads: Loads, q: OrderArgs, dataId: string) returns (s: RunDocs)
    requires CanRun(m, loads, q, dataId)
    ensures RunOf(m, q, dataId, s, CreatedRecipe(m, q).parts) && CreatedPairing(m, q).Ok? && QuietPairing(s.pairing)
    ensures s.order == CreateOrder(m, q).value.value.order && s.fn == CreatedFunction(m, q)
    ensures s.invoice == CreateOrder(m, q).value.value.invoice && s.pairing == CreatedPairing(m, q).value
    ensures NoCollision(m.sha, m.dumps(Obj(s.out)))
  {
    var minted := CreateOrder(m, q).value.value;
    CreatedOf(m, q);
    CreatedQuiet(m, q);
    MintedIsNew(m, q);
    CreatedMakes(m, q);
    OutShows(m, dataId, minted.order);
    var out := OutInvoice(m, dataId, minted.orderId).value;
    WithShows(m, [], "invoice", Obj(out));
    s := RunDocs(With(m, [], "invoice", JsonId(m, Obj(out))).value, out, minted.order, CreatedFunction(m, q),
                 CreatedPairing(m, q).value, minted.invoice);
  }

  /** The Function refers to its parts, and none of them has a bag. */
  lemma FunctionShows(m: Node, q: OrderArgs)
    requires Ready(m) && CreateOrder(m, q).Ok? && CanonicalArgs(q)
    ensures var (fn, p) := (CreatedFunction(m, q), CreatedRecipe(m, q).parts);
      && Shows(m, fn, "process", Obj(p.process)) && Shows(m, fn, "infrafunction", Obj(p.infra))
      && !Has(fn, FLAT) && !Has(p.process, FLAT) && !Has(p.infra, FLAT)
  {
    var r := CreatedRecipe(m, q);
    CreatedMakes(m, q);
    PairShows(m, r.parts);
    RecipeNoFlat(r);
  }

  lemma RecipeNoFlat(r: Recipe)
    requires Cooked(r)
    ensures !Has(r.parts.process, FLAT) && !Has(r.parts.infra, FLAT)
  {
    CookedParts(r);
    ProcessNoFlat(r.n, r.f, r.parts.processSource, r.process);
    InfraNoFlat(r.n, r.f, r.parts.infraSource, r.infra);
  }

  lemma ProcessNoFlat(m: Node, f: FunctionArgs, source: string, prev: Dict)
    requires IsSha(m.sha) && FillSlots(m, ProcessSlots(f), source, prev, []).Ok?
    ensures !Has(FillSlots(m, ProcessSlots(f), source, prev, []).value.value, FLAT)
  {
    ProcessSlotsGood(f);
    FillSlotsNoFlat(m, ProcessSlots(f), source, prev, []);
  }

  lemma InfraNoFlat(m: Node, f: FunctionArgs, source: string, prev: Dict)
    requires IsSha(m.sha) && FillSlots(m, InfraSlots(f), source, prev, []).Ok?
    ensures !Has(FillSlots(m, InfraSlots(f), source, prev, []).value.value, FLAT)
  {
    SubprocIsPlain("infrafunction_");
    FillSlotsNoFlat(m, InfraSlots(f), source, prev, []);
  }

  /** What the store holds after the run. */
  function Stored(s: RunDocs, p: FunctionParts): seq<Json> {
    [Obj(s.out), Obj(s.order), Obj(s.fn), Obj(s.pairing), Obj(s.invoice), Obj(p.process), Obj(p.infra)]
  }

  lemma StoredAre(s: RunDocs, p: FunctionParts)
    ensures var docs := Stored(s, p);
      && Obj(s.out) in docs && Obj(s.order) in docs && Obj(s.fn) in docs && Obj(s.pairing) in docs
      && Obj(s.invoice) in docs && Obj(p.process) in docs && Obj(p.infra) in docs
  {
    var docs := Stored(s, p);
    assert docs[0] in docs && docs[1] in docs && docs[2] in docs && docs[3] in docs && docs[4] in docs
      && docs[5] in docs && docs[6] in docs;
  }

  lemma CreatedKept(m: Node, loads: Loads, q: OrderArgs, dataId: string, s: RunDocs, p: FunctionParts)
    requires CanRun(m, loads, q, dataId) && p == CreatedRecipe(m, q).parts && CreatedPairing(m, q).Ok?
    requires s.order == CreateOrder(m, q).value.value.order && s.fn == CreatedFunction(m, q)
    requires s.invoice == CreateOrder(m, q).value.value.invoice && s.pairing == CreatedPairing(m, q).value
    requires NoCollision(m.sha, m.dumps(Obj(s.out)))
    ensures AllKept(m, Stored(s, p), s)
    ensures Kept(m, Stored(s, p), Obj(p.process)) && Kept(m, Stored(s, p), Obj(p.infra))
  {
    var puts := CreateOrder(m, q).value.puts;
    CreatedPuts(m, q);
    StoredAre(s, p);
    forall b | b in puts ensures NoCollision(m.sha, b) {
      UnforgedIn(m.sha, puts, b);
    }
  }

  /** No stored document has a bag. */
  lemma NoBags(m: Node, q: OrderArgs, dataId: string, s: RunDocs)
    requires Ready(m) && CreateOrder(m, q).Ok? && CanonicalArgs(q) && Stable(dataId) && !Has(s.pairing, FLAT)
    requires RunOf(m, q, dataId, s, CreatedRecipe(m, q).parts) && s.fn == CreatedFunction(m, q)
    ensures forall j :: j in Stored(s, CreatedRecipe(m, q).parts) ==> NoFlat(j)
  {
    FunctionShows(m, q);
    BagsOf(m, q, dataId, s, CreatedRecipe(m, q).parts);
    StoredNoBags(s, CreatedRecipe(m, q).parts);
  }

  lemma BagsOf(m: Node, q: OrderArgs, dataId: string, s: RunDocs, p: FunctionParts)
    requires Ready(m) && Stable(dataId) && RunOf(m, q, dataId, s, p)
    ensures !Has(s.out, FLAT) && !Has(s.order, FLAT) && !Has(s.invoice, FLAT)
  {
    OutShows(m, dataId, s.order);
    OrderShows(m, q, Obj(s.fn), Obj(s.pairing), Obj(s.invoice));
    InvoiceLeaf(m, [], q.dataId);
  }

  lemma StoredNoBags(s: RunDocs, p: FunctionParts)
    requires !Has(s.out, FLAT) && !Has(s.order, FLAT) && !Has(s.fn, FLAT) && !Has(s.pairing, FLAT)
    requires !Has(s.invoice, FLAT) && !Has(p.process, FLAT) && !Has(p.infra, FLAT)
    ensures forall j :: j in Stored(s, p) ==> NoFlat(j)
  {
  }

  /** The references of the Invoice that was put out. */
  lemma OutReads(m: Node, loads: Loads, dataId: string, s: RunDocs, docs: seq<Json>)
    requires Ready(m) && JsonCodec(m, loads) && Stable(dataId) && Kept(m, docs, Obj(s.order))
    requires OutInvoice(m, dataId, JsonId(m, Obj(s.order))) == Ok(s.out)
    ensures RefId(s.out, "data", NO_LOCATORS) == Ok(Some(dataId))
    ensures RefId(s.out, "order", NO_LOCATORS) == Ok(Some(JsonId(m, Obj(s.order))))
    ensures CommittingRef(OnStore(m, docs).mesh, s.out, "order")
  {
    OutShows(m, dataId, s.order);
    UriFixes(m, Obj(s.order));
  }

  /** The parts of the Function can be read. */
  lemma PartsInStore(m: Node, loads: Loads, docs: seq<Json>, fn: Dict, p: FunctionParts)
    requires Ready(m) && JsonCodec(m, loads) && Kept(m, docs, Obj(p.process)) && Kept(m, docs, Obj(p.infra))
    requires Shows(m, fn, "process", Obj(p.process)) && Shows(m, fn, "infrafunction", Obj(p.infra))
    ensures CatStem(OnStore(m, docs), fn, "process") == Ok(p.process)
    ensures CatStem(OnStore(m, docs), fn, "infrafunction") == Ok(p.infra)
  {
    ShownLeads(m, loads, docs, fn, "process", Obj(p.process));
    ShownLeads(m, loads, docs, fn, "infrafunction", Obj(p.infra));
  }

  lemma ReadWithBag(n: Node, d: Dict, stem: string, id: string)
    requires RefId(Del(d, FLAT), stem, n.mesh.locators) == Ok(Some(id)) && Stable(id)
    ensures Require(n, d, stem) == Ok(id)
  {
    FlatHidesNothing(d, stem, n.mesh);
    StableNotEmpty(id);
  }

  /** A finished run of the created Order, held by a store that has its documents, and the step from it that replaces
      nothing. The step succeeds. */
  lemma CreatedRelinks(m: Node, loads: Loads, q: OrderArgs, dataId: string) returns (t: Turn)
    requires CanRun(m, loads, q, dataId)
    ensures t.n == m.(mesh := t.n.mesh) && t.link == ByProcess(NO_REPLACEMENTS)
    ensures GoodNode(t.n, loads) && Linked(t.n, t.bom, t.link).Ok? && StoredRun(t.n.mesh, t.bom).Some?
    ensures RunsCreated(t, m, q) && RefId(OutputInvoice(t), "data", NO_LOCATORS) == Ok(Some(dataId))
    ensures t.n.mesh.locators == NO_LOCATORS
  {
    var r := CreatedRecipe(m, q);
    var s := DocsOf(m, loads, q, dataId);
    var docs := Stored(s, r.parts);
    var n := OnStore(m, docs);
    CreatedKept(m, loads, q, dataId, s, r.parts);
    NoBags(m, q, dataId, s);
    StoreIsGood(m, loads, docs);
    var invoice, order, fn := RunIsRead(m, loads, q, dataId, s, r.parts, docs, 3);
    OutReads(m, loads, dataId, s, docs);
    FunctionShows(m, q);
    CreatedMakes(m, q);
    CreatedReads(m, q, n.mesh, NO_LOCATORS);
    JsonIdStable(m, Obj(CreatedPairing(m, q).value));
    PartsInStore(m, loads, docs, s.fn, r.parts);
    RunRelinks(n, s, invoice, order, fn, r, dataId, JsonId(m, Obj(CreatedPairing(m, q).value)));
    t := Turn(n, s.bom, ByProcess(NO_REPLACEMENTS));
  }

  lemma RunRelinks(n: Node, s: RunDocs, invoice: Dict, order: Dict, fn: Dict, r: Recipe, dataId: string,
                   structureId: string)
    requires Ready(n) && Makes(r, s.fn) && Alike(n, r.n)
    requires PriorRun(n, s.bom) == Ok((invoice, order)) && NestedDoc(order, "function") == Ok(fn)
    requires Del(invoice, FLAT) == s.out && Del(order, FLAT) == s.order && Del(fn, FLAT) == s.fn
    requires CatStem(n, s.fn, "process") == Ok(r.parts.process)
      && CatStem(n, s.fn, "infrafunction") == Ok(r.parts.infra)
    requires RefId(s.out, "data", n.mesh.locators) == Ok(Some(dataId)) && Stable(dataId)
    requires RefId(s.order, "structure", n.mesh.locators) == Ok(Some(structureId)) && Stable(structureId)
    ensures Linked(n, s.bom, ByProcess(NO_REPLACEMENTS)).Ok?
  {
    ReadWithBag(n, invoice, "data", dataId);
    ReadWithBag(n, order, "structure", structureId);
    RelinkOk(n, s.bom, invoice, order, fn, r, dataId, structureId);
  }

  /** The run as the link operations read it. */
  lemma PriorReads(n: Node, s: RunDocs, k: RunKeys, depth: nat) returns (invoice: Dict, order: Dict, fn: Dict)
    requires RunPath(n, s, k, depth) && depth == 3 && "order" in n.mesh.stems && "function" in n.mesh.stems
    ensures PriorRun(n, s.bom) == Ok((invoice, order)) && NestedDoc(order, "function") == Ok(fn)
    ensures Del(invoice, FLAT) == s.out && Del(order, FLAT) == s.order && Del(fn, FLAT) == s.fn
  {
    invoice, order, fn := RunReads(n, s, k, depth);
  }

  lemma FollowedStems()
    ensures "order" in FLAT_STEM_ORDER && "function" in FLAT_STEM_ORDER
  {
    assert FLAT_STEM_ORDER[0] == "order" && FLAT_STEM_ORDER[8] == "function";
  }

  lemma RunIsRead(m: Node, loads: Loads, q: OrderArgs, dataId: string, s: RunDocs, p: FunctionParts, docs: seq<Json>,
                  depth: nat) returns (invoice: Dict, order: Dict, fn: Dict)
    requires Ready(m) && JsonCodec(m, loads) && Stable(dataId) && QuietPairing(s.pairing) && depth == 3
    requires RunOf(m, q, dataId, s, p) && AllKept(m, docs, s)
    ensures var n := OnStore(m, docs);
      && PriorRun(n, s.bom) == Ok((invoice, order)) && NestedDoc(order, "function") == Ok(fn)
      && StoredRun(n.mesh, s.bom) == Some((s.out, s.order))
    ensures Del(invoice, FLAT) == s.out && Del(order, FLAT) == s.order && Del(fn, FLAT) == s.fn
  {
    var k := RunFollowed(m, loads, q, dataId, s, p, docs, depth);
    FollowedStems();
    invoice, order, fn := PriorReads(OnStore(m, docs), s, k, depth);
  }

  /** One turn is a chain. */
  lemma ChainOfOne(t: Turn, loads: Loads)
    requires GoodTurn(t, loads) && GoodOrder(t)
    ensures Chain([t], loads)
  {
  }

  lemma OriginOfOne(ts: seq<Turn>, t: Turn, m: Node, q: OrderArgs)
    requires ts == [t] && StoredRun(t.n.mesh, t.bom).Some? && RunsCreated(t, m, q)
    ensures Originates(ts, Created(m, q))
  {
  }

  /** A step without replacements from the run of a created Order, over the base URL the Order was created over. */
  lemma CreatedStays(ts: seq<Turn>, t: Turn, loads: Loads, m: Node, q: OrderArgs)
    requires GoodTurn(t, loads) && RunsCreated(t, m, q) && t.link == ByProcess(NO_REPLACEMENTS) && SameBase(t.n, m)
    requires ts == [t]
    ensures Chain(ts, loads) && !Moved(t, "function")
    ensures !PairingLineage(RunOrder(t), Next(t).order, MutatedMode, CarriedMode)
  {
    RanWhatWasCreated(t, loads, m, q);
    WrittenIsGood(t);
    ChainOfOne(t, loads);
    OriginOfOne(ts, t, m, q);
    NoReplacementsModes(ts, loads, Created(m, q), 0);
  }

  /** So every created Order has a run from which `linkProcess` without replacements mints an Order with the very same
      Function, and the pairing assertion refuses that Order as (mutated, carried). */
  lemma CreatedUnchanged(m: Node, loads: Loads, q: OrderArgs, dataId: string) returns (t: Turn)
    requires CanRun(m, loads, q, dataId)
    ensures t.n == m.(mesh := t.n.mesh) && t.link == ByProcess(NO_REPLACEMENTS)
    ensures Linked(t.n, t.bom, t.link).Ok? && StoredRun(t.n.mesh, t.bom).Some? && RunsCreated(t, m, q)
    ensures Unforged(m.sha, Linked(t.n, t.bom, t.link).value.puts) ==>
      && Chain([t], loads) && !Moved(t, "function")
      && !PairingLineage(RunOrder(t), Next(t).order, MutatedMode, CarriedMode)
  {
    t := CreatedRelinks(m, loads, q, dataId);
    if Unforged(m.sha, Linked(t.n, t.bom, t.link).value.puts) {
      CreatedStays([t], t, loads, m, q);
    }
  }
}
