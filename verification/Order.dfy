/** Minting the next Order from a prior run: `linkProcess`, `linkStructure`, `linkOrder`
    (cats/network/order.py), with eBOM stems off. */
module Order {
  import opened Cas
  import opened ContentRef
  import opened InspectTree
  import opened Json
  import opened Manifest
  import opened Text
  import opened Wrappers

  /** The mesh an Order is minted on: the JSON encoding, base URL and endpoint, the documents it can read, the
      callables it binds and the Structure pairing it computes from a directory. */
  datatype Node = Node(
    sha: Sha, dumps: Json -> seq<Byte>, base: string, endpoint: string, mesh: Mesh,
    bind: (string, string) -> seq<Byte>, pairing: string -> Result<Dict>)

  ghost predicate Ready(n: Node) {
    IsSha(n.sha) && HostOnly(n.base)
  }

  /** The id `put_json` returns. */
  function JsonId(n: Node, j: Json): string
    requires IsSha(n.sha)
  {
    NiText(n.sha, n.dumps(j))
  }

  /** `set_ref(doc, stem, id)`. */
  function With(n: Node, d: Dict, stem: string, id: string): Result<Dict> {
    var (d', _) :- SetRef(d, stem, id, n.base, None);
    Ok(d')
  }

  /** `ref_id`, where an empty or missing id is an error. */
  function Require(n: Node, d: Dict, stem: string): Result<string> {
    var id :- RefId(d, stem, n.mesh.locators);
    if id.Some? && id.value != [] then Ok(id.value) else Err("missing " + stem)
  }

  function AsDict(j: Json): Result<Dict> {
    if j.Obj? then Ok(j.fields) else Err("not a JSON object")
  }

  /** `_cat_stem`. */
  function CatStem(n: Node, d: Dict, stem: string): Result<Dict> {
    var key :- RefKey(d, stem, n.mesh);
    if key.None? then Err("missing " + stem)
    else var j :- n.mesh.cat(key.value); AsDict(j)
  }

  // --- Function --------------------------------------------------------------------------------------

  /** The callables to replace; `None` carries the prior slot. */
  datatype FunctionArgs = FunctionArgs(
    ingress: Option<string>, integrated: Option<string>, egress: Option<string>, cache: Option<string>,
    infra: Option<string>)

  predicate AsksFunction(f: FunctionArgs) {
    f.ingress.Some? || f.integrated.Some? || f.egress.Some? || f.cache.Some? || f.infra.Some?
  }

  /** The documents an operation puts, in order, and the value it returns. */
  datatype Put<T> = Put(puts: seq<seq<Byte>>, value: T)

  function FillSlots(n: Node, slots: seq<(string, Option<string>)>, source: string, prev: Dict,
                     doc: Dict): Result<Put<Dict>>
    requires IsSha(n.sha)
    decreases |slots|
  {
    if slots == [] then Ok(Put([], doc))
    else
      var (stem, replacement) := slots[0];
      var slot :- SlotId(n, stem, replacement, source, prev);
      var doc1 :- With(n, doc, stem, slot.value);
      var rest :- FillSlots(n, slots[1..], source, prev, doc1);
      Ok(Put(slot.puts + rest.puts, rest.value))
  }

  function SlotId(n: Node, stem: string, replacement: Option<string>, source: string, prev: Dict): Result<Put<string>>
    requires IsSha(n.sha)
  {
    match replacement
    case Some(callable) =>
      var leaf := n.bind(callable, source);
      Ok(Put([leaf], NiText(n.sha, leaf)))
    case None =>
      var prior :- Require(n, prev, stem);
      Ok(Put([], prior))
  }

  /** The Process and InfraFunction documents and the two source ids. */
  datatype FunctionParts = FunctionParts(process: Dict, infra: Dict, processSource: string, infraSource: string)

  function ProcessSlots(f: FunctionArgs): seq<(string, Option<string>)> {
    [("ingress_subproc", f.ingress), ("integrated_subproc", f.integrated), ("egress_subproc", f.egress),
     ("integration_cache_subproc", f.cache)]
  }

  function InfraSlots(f: FunctionArgs): seq<(string, Option<string>)> {
    [("infrafunction_subproc", f.infra)]
  }

  function Parts(n: Node, prev: Dict, f: FunctionArgs): Result<Put<FunctionParts>>
    requires IsSha(n.sha)
  {
    var processSource :- Require(n, prev, "process_source");
    var infraSource :- Require(n, prev, "infrafunction_source");
    var prevProcess :- CatStem(n, prev, "process");
    var prevInfra :- CatStem(n, prev, "infrafunction");
    Fill(n, f, processSource, infraSource, prevProcess, prevInfra)
  }

  function Fill(n: Node, f: FunctionArgs, processSource: string, infraSource: string, prevProcess: Dict,
                prevInfra: Dict): Result<Put<FunctionParts>>
    requires IsSha(n.sha)
  {
    var process :- FillSlots(n, ProcessSlots(f), processSource, prevProcess, []);
    var infra :- FillSlots(n, InfraSlots(f), infraSource, prevInfra, []);
    Ok(Put(process.puts + infra.puts, FunctionParts(process.value, infra.value, processSource, infraSource)))
  }

  /** The Function pairing over those documents. */
  function PairFunction(n: Node, p: FunctionParts): Result<Dict>
    requires IsSha(n.sha)
  {
    var doc1 :- With(n, [], "process", JsonId(n, Obj(p.process)));
    var doc2 :- With(n, doc1, "infrafunction", JsonId(n, Obj(p.infra)));
    var doc3 :- With(n, doc2, "process_source", p.processSource);
    With(n, doc3, "infrafunction_source", p.infraSource)
  }

  /** The new Function pairing. */
  function FunctionDoc(n: Node, prev: Dict, f: FunctionArgs): Result<Put<Dict>>
    requires IsSha(n.sha)
  {
    var parts :- Parts(n, prev, f);
    var doc :- PairFunction(n, parts.value);
    Ok(Put(parts.puts + [n.dumps(Obj(parts.value.process)), n.dumps(Obj(parts.value.infra))], doc))
  }

  /** `_rebuild_function`: the id of the new Function pairing. */
  function RebuildFunction(n: Node, prev: Dict, f: FunctionArgs): Result<Put<string>>
    requires IsSha(n.sha)
  {
    var doc :- FunctionDoc(n, prev, f);
    Ok(Put(doc.puts + [n.dumps(Obj(doc.value))], JsonId(n, Obj(doc.value))))
  }

  // --- Structure -------------------------------------------------------------------------------------

  datatype StructureArgs = StructureArgs(
    filepath: Option<string>, root: Option<string>, plant: Option<string>, infrastructure: Option<string>,
    filepathName: Option<string>)

  predicate AsksStructure(s: StructureArgs) {
    s.filepath.Some? || s.root.Some? || s.plant.Some? || s.infrastructure.Some?
  }

  datatype NestedIds = NestedIds(root: Option<string>, plant: Option<string>, infrastructure: Option<string>)

  function IdsOfPairing(n: Node, d: Dict): Result<NestedIds> {
    var root :- RefId(d, "root", n.mesh.locators);
    var plant :- RefId(d, "plant", n.mesh.locators);
    var infrastructure :- RefId(d, "infrastructure", n.mesh.locators);
    Ok(NestedIds(root, plant, infrastructure))
  }

  /** Rewrites a stem as a `_uri` when it can be read. */
  function Rewritten(n: Node, d: Dict, stem: string): Result<Dict> {
    var current :- RefId(d, stem, n.mesh.locators);
    if current.Some? && current.value != [] then With(n, d, stem, current.value) else Ok(d)
  }

  /** The nested references of a pairing, uri-only. */
  function RewrittenAll(n: Node, d: Dict): Result<Dict> {
    var q1 :- Rewritten(n, d, "root");
    var q2 :- Rewritten(n, q1, "plant");
    Rewritten(n, q2, "infrastructure")
  }

  function Overridden(n: Node, d: Dict, stem: string, id: Option<string>): Result<Dict> {
    if id.Some? then With(n, d, stem, id.value) else Ok(d)
  }

  /** The nested ids of the prior pairing, all of them there. */
  function PrevIds(n: Node, prev: Dict): Result<NestedIds> {
    var root :- Require(n, prev, "root");
    var plant :- Require(n, prev, "plant");
    var infrastructure :- Require(n, prev, "infrastructure");
    Ok(NestedIds(Some(root), Some(plant), Some(infrastructure)))
  }

  /** The guard against a pairing with the ids it had. */
  function Changed(n: Node, pairing: Dict, ids: NestedIds): Result<Dict> {
    var now :- IdsOfPairing(n, pairing);
    if now == ids then Err("structure mutation produced an unchanged structure pairing") else Ok(pairing)
  }

  /** `_resolve_structure_pairing`: a pairing whose nested ids differ from the prior ones, or an error. */
  function ResolvePairing(n: Node, prev: Dict, s: StructureArgs): Result<Dict> {
    var ids :- PrevIds(n, prev);
    if !AsksStructure(s) then Err("structure mutation requires a request")
    else
      var pairing :- Candidate(n, s, ids);
      Changed(n, pairing, ids)
  }

  function Candidate(n: Node, s: StructureArgs, ids: NestedIds): Result<Dict> {
    var start :- StartPairing(n, s, ids);
    Overrides(n, start, NestedIds(s.root, s.plant, s.infrastructure))
  }

  /** Writes the given nested ids into a pairing. */
  function Overrides(n: Node, d: Dict, ids: NestedIds): Result<Dict> {
    var p1 :- Overridden(n, d, "root", ids.root);
    var p2 :- Overridden(n, p1, "plant", ids.plant);
    Overridden(n, p2, "infrastructure", ids.infrastructure)
  }

  function StartPairing(n: Node, s: StructureArgs, ids: NestedIds): Result<Dict> {
    var p0 :- if s.filepath.Some? then n.pairing(s.filepath.value) else Overrides(n, [], ids);
    RewrittenAll(n, p0)
  }

  /** `os.path.basename(path.rstrip('/'))`. */
  function BaseName(path: string): string {
    AfterLastSlash(RStripSlash(path))
  }

  /** The `structure_filepath` to write; a JSON null in the prior Order counts as none. */
  function StructureName(order: Dict, s: StructureArgs): Result<Option<Json>> {
    if s.filepathName.Some? then Ok(Some(Str(s.filepathName.value)))
    else if s.filepath.Some? then Ok(Some(Str(BaseName(s.filepath.value))))
    else match Get(order, "structure_filepath")
      case None => Err("structure_filepath")
      case Some(Null) => Ok(None)
      case Some(j) => Ok(Some(j))
  }

  // --- the new Order ---------------------------------------------------------------------------------

  /** `strip_ebom_stems`. */
  function StripEbom(d: Dict): Dict {
    Del(Del(Del(Del(Del(Del(d, "function_sbom_uri"), "function_sbom_cid"), "structure_sbom_uri"), "structure_sbom_cid"),
            "input_data_sbom_uri"), "input_data_sbom_cid")
  }

  datatype Minted = Minted(invoice: Dict, order: Dict, orderId: string)

  /** The prior Order, edited. */
  function OrderShell(n: Node, prior: Dict, functionId: string, structureId: string, invoiceId: string,
                      name: Option<Json>): Result<Dict> {
    var o1 :- With(n, StripEbom(Del(prior, FLAT)), "function", functionId);
    var o2 :- With(n, o1, "structure", structureId);
    var o3 :- With(n, o2, "invoice", invoiceId);
    var o4 := if name.Some? then Set(o3, "structure_filepath", name.value) else o3;
    Ok(Set(o4, "endpoint", Str(n.endpoint)))
  }

  /** `_order_request_from_prior`. */
  function MintOrder(n: Node, prior: Dict, functionId: string, structureId: string, dataId: string,
                     name: Option<Json>): Result<Put<Minted>>
    requires IsSha(n.sha)
  {
    var invoice :- With(n, [], "data", dataId);
    var order :- OrderShell(n, prior, functionId, structureId, JsonId(n, Obj(invoice)), name);
    Ok(Put([n.dumps(Obj(invoice)), n.dumps(Obj(order))], Minted(invoice, order, JsonId(n, Obj(order)))))
  }

  // --- the operations --------------------------------------------------------------------------------

  /** `flatten_bom` and `_invoice_order_from_flat_bom`: the Invoice and the Order of a run, as inspect nodes. */
  function RunAtDepth(n: Node, bom: Dict, depth: int): Result<(Dict, Dict)> {
    var invoice :- FlattenBomInvoice(bom, depth, n.mesh);
    var _ :- FlattenBomLog(bom, depth, n.mesh);
    InvoiceOrder(invoice)
  }

  function InvoiceOrder(j: Json): Result<(Dict, Dict)> {
    var invoice :- AsDict(j);
    match At(invoice, ["order"])
    case Some(Obj(order)) => Ok((invoice, order))
    case _ => Err("flatten_bom invoice.flat.order missing")
  }

  function PriorRun(n: Node, bom: Dict): Result<(Dict, Dict)> {
    RunAtDepth(n, bom, 4)
  }

  /** A document nested in an inspected Order. */
  function NestedDoc(order: Dict, stem: string): Result<Dict> {
    match At(order, [stem])
    case Some(Obj(d)) => Ok(d)
    case _ => Err("flatten_bom order.flat missing a document")
  }

  /** The mint from a Function, a Structure with its path, and data, each of them found or not. */
  function Assemble(n: Node, order: Dict, function_: Result<Put<string>>,
                    structure: Result<Put<(string, Option<Json>)>>,
                    data: Result<string>): Result<Put<Minted>>
    requires IsSha(n.sha)
  {
    var f :- function_;
    var s :- structure;
    var dataId :- data;
    var minted :- MintOrder(n, order, f.value, s.value.0, dataId, s.value.1);
    Ok(Put(f.puts + s.puts + minted.puts, minted.value))
  }

  function CarriedFunction(n: Node, order: Dict): Result<Put<string>> {
    var id :- Require(n, order, "function");
    Ok(Put([], id))
  }

  function RebuiltFunction(n: Node, order: Dict, f: FunctionArgs): Result<Put<string>>
    requires IsSha(n.sha)
  {
    var prev :- NestedDoc(order, "function");
    RebuildFunction(n, prev, f)
  }

  function CarriedStructure(n: Node, order: Dict): Result<Put<(string, Option<Json>)>> {
    var id :- Require(n, order, "structure");
    Ok(Put([], (id, None)))
  }

  /** The new pairing and the name to go with it. */
  function LinkedStructure(n: Node, order: Dict, s: StructureArgs): Result<(Dict, Option<Json>)> {
    var prev :- NestedDoc(order, "structure");
    var pairing :- ResolvePairing(n, prev, s);
    var name :- StructureName(order, s);
    Ok((pairing, name))
  }

  function NewStructure(n: Node, order: Dict, s: StructureArgs): Result<Put<(string, Option<Json>)>>
    requires IsSha(n.sha)
  {
    var (pairing, name) :- LinkedStructure(n, order, s);
    Ok(Put([n.dumps(Obj(pairing))], (JsonId(n, Obj(pairing)), name)))
  }

  function ProcessStep(n: Node, invoice: Dict, order: Dict, f: FunctionArgs): Result<Put<Minted>>
    requires IsSha(n.sha)
  {
    Assemble(n, order, RebuiltFunction(n, order, f), CarriedStructure(n, order), Require(n, invoice, "data"))
  }

  function LinkProcess(n: Node, bom: Dict, f: FunctionArgs): Result<Put<Minted>>
    requires IsSha(n.sha)
  {
    var (invoice, order) :- PriorRun(n, bom);
    ProcessStep(n, invoice, order, f)
  }

  function StructureStep(n: Node, invoice: Dict, order: Dict, s: StructureArgs): Result<Put<Minted>>
    requires IsSha(n.sha)
  {
    Assemble(n, order, CarriedFunction(n, order), NewStructure(n, order, s), Require(n, invoice, "data"))
  }

  function LinkStructure(n: Node, bom: Dict, s: StructureArgs): Result<Put<Minted>>
    requires IsSha(n.sha)
  {
    var (invoice, order) :- PriorRun(n, bom);
    StructureStep(n, invoice, order, s)
  }

  /** The Function half of `linkOrder`: the prior id must be there even when it is replaced. */
  function OrderFunction(n: Node, order: Dict, f: FunctionArgs): Result<Put<string>>
    requires IsSha(n.sha)
  {
    var prior :- CarriedFunction(n, order);
    if AsksFunction(f) then RebuiltFunction(n, order, f) else Ok(prior)
  }

  function OrderStructure(n: Node, order: Dict, s: StructureArgs): Result<Put<(string, Option<Json>)>>
    requires IsSha(n.sha)
  {
    var prior :- CarriedStructure(n, order);
    if AsksStructure(s) then NewStructure(n, order, s) else Ok(prior)
  }

  function OrderStep(n: Node, invoice: Dict, order: Dict, f: FunctionArgs, s: StructureArgs): Result<Put<Minted>>
    requires IsSha(n.sha)
  {
    Assemble(n, order, OrderFunction(n, order, f), OrderStructure(n, order, s), Require(n, invoice, "data"))
  }

  function LinkOrder(n: Node, bom: Dict, f: FunctionArgs, s: StructureArgs): Result<Put<Minted>>
    requires IsSha(n.sha)
  {
    if !AsksFunction(f) && !AsksStructure(s) then Err("linkOrder requires a change")
    else
      var (invoice, order) :- PriorRun(n, bom);
      OrderStep(n, invoice, order, f, s)
  }
}
