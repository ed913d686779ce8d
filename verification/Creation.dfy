/** The first Order of a lineage: `create_order_request` (cats/network/order.py), with eBOM stems off. */
module Creation {
  import opened CarriedRefs
  import opened Cas
  import opened ContentRef
  import opened Digest
  import opened FunctionChange
  import opened FunctionRebuild
  import opened InspectTree
  import opened Json
  import opened Lineage
  import opened LineageChain
  import opened Manifest
  import opened Order
  import opened StructurePairing
  import opened Wrappers

  /** The five callables, the ids of the two staged source packages and of the data directory, the Structure directory,
      the job home and the endpoint. */
  datatype OrderArgs = OrderArgs(
    ingress: string, integrated: string, egress: string, cache: string, infra: string,
    processSource: string, infraSource: string, dataId: string,
    filepath: string, jobHome: Json, endpoint: Option<string>)

  function Callables(q: OrderArgs): FunctionArgs {
    FunctionArgs(Some(q.ingress), Some(q.integrated), Some(q.egress), Some(q.cache), Some(q.infra))
  }

  /** The Structure pairing of the directory, uri-only. */
  function CreatedPairing(n: Node, q: OrderArgs): Result<Dict> {
    var p :- n.pairing(q.filepath);
    RewrittenAll(n, p)
  }

  /** The two parts of the Function, every slot bound to its source. */
  function CreatedParts(n: Node, q: OrderArgs): Result<Put<FunctionParts>>
    requires IsSha(n.sha)
  {
    Fill(n, Callables(q), q.processSource, q.infraSource, [], [])
  }

  function NewShell(n: Node, q: OrderArgs): Dict {
    [Field("structure_filepath", Str(BaseName(q.filepath))), Field("JOB_HOME", q.jobHome),
     Field("endpoint", Str(if q.endpoint.Some? then q.endpoint.value else n.endpoint))]
  }

  /** The Order over its three references. */
  function NewOrder(n: Node, q: OrderArgs, functionId: string, structureId: string, invoiceId: string): Result<Dict> {
    var o1 :- With(n, NewShell(n, q), "function", functionId);
    var o2 :- With(n, o1, "structure", structureId);
    With(n, o2, "invoice", invoiceId)
  }

  /** The Invoice and the Order, given Structure and Function. */
  function NewMint(n: Node, q: OrderArgs, pairing: Dict, fn: Dict): Result<Minted>
    requires IsSha(n.sha)
  {
    var invoice :- With(n, [], "data", q.dataId);
    var order :- NewOrder(n, q, JsonId(n, Obj(fn)), JsonId(n, Obj(pairing)), JsonId(n, Obj(invoice)));
    Ok(Minted(invoice, order, JsonId(n, Obj(order))))
  }

  /** `create_order_request`: what it puts and the Order it mints. */
  function CreateOrder(n: Node, q: OrderArgs): Result<Put<Minted>>
    requires IsSha(n.sha)
  {
    var pairing :- CreatedPairing(n, q);
    var parts :- CreatedParts(n, q);
    var fn :- PairFunction(n, parts.value);
    var minted :- NewMint(n, q, pairing, fn);
    Ok(Put([n.dumps(Obj(pairing))] + parts.puts + FunctionPuts(n, parts.value, fn)
           + [n.dumps(Obj(minted.invoice)), n.dumps(Obj(minted.order))], minted))
  }

  function FunctionPuts(n: Node, p: FunctionParts, fn: Dict): seq<Bytes> {
    [n.dumps(Obj(p.process)), n.dumps(Obj(p.infra)), n.dumps(Obj(fn))]
  }

  /** The ids that come from `put_dir` are canonical. */
  ghost predicate CanonicalArgs(q: OrderArgs) {
    Stable(q.processSource) && Stable(q.infraSource) && Stable(q.dataId)
  }

  // --- what the created Order refers to --------------------------------------------------------------

  lemma CreatedOf(n: Node, q: OrderArgs)
    requires IsSha(n.sha) && CreateOrder(n, q).Ok?
    ensures CreatedPairing(n, q).Ok? && CreatedParts(n, q).Ok? && PairFunction(n, CreatedParts(n, q).value.value).Ok?
    ensures NewMint(n, q, CreatedPairing(n, q).value, PairFunction(n, CreatedParts(n, q).value.value).value)
         == Ok(CreateOrder(n, q).value.value)
  {
  }

  /** The Function document of a created Order. */
  ghost function CreatedFunction(n: Node, q: OrderArgs): Dict
    requires IsSha(n.sha) && CreateOrder(n, q).Ok?
  {
    CreatedOf(n, q);
    PairFunction(n, CreatedParts(n, q).value.value).value
  }

  ghost function CreatedRecipe(n: Node, q: OrderArgs): Recipe
    requires IsSha(n.sha) && CreateOrder(n, q).Ok?
  {
    CreatedOf(n, q);
    Recipe(n, Callables(q), [], [], CreatedParts(n, q).value.value)
  }

  lemma AllGiven(q: OrderArgs)
    ensures forall i :: 0 <= i < |ProcessSlots(Callables(q))| ==> ProcessSlots(Callables(q))[i].1.Some?
    ensures forall i :: 0 <= i < |InfraSlots(Callables(q))| ==> InfraSlots(Callables(q))[i].1.Some?
  {
  }

  lemma PartsSources(n: Node, q: OrderArgs)
    requires IsSha(n.sha) && CreatedParts(n, q).Ok?
    ensures CreatedParts(n, q).value.value.processSource == q.processSource
    ensures CreatedParts(n, q).value.value.infraSource == q.infraSource
  {
    FillParts(n, Callables(q), q.processSource, q.infraSource, [], []);
  }

  /** The first Function is made by the same recipe as a rebuilt one. */
  lemma CreatedMakes(n: Node, q: OrderArgs)
    requires Ready(n) && CreateOrder(n, q).Ok? && CanonicalArgs(q)
    ensures Makes(CreatedRecipe(n, q), CreatedFunction(n, q))
  {
    CreatedOf(n, q);
    AllGiven(q);
    PartsSources(n, q);
  }

  /** The Function and Structure references of a new Order are read through CAS paths. */
  lemma NewOrderCommits(n: Node, q: OrderArgs, functionId: string, structureId: string, invoiceId: string, m: Mesh)
    requires Ready(n) && Stable(functionId) && Stable(structureId) && Stable(invoiceId)
    requires IsNiOrDigest(functionId) && IsNiOrDigest(structureId)
    requires NewOrder(n, q, functionId, structureId, invoiceId).Ok?
    ensures var order := NewOrder(n, q, functionId, structureId, invoiceId).value;
      CommittingRef(m, order, "function") && CommittingRef(m, order, "structure")
  {
    PlainStems();
    var o0 := NewShell(n, q);
    WrittenCommits(n, o0, "function", functionId);
    var o1 := With(n, o0, "function", functionId).value;
    WrittenCommits(n, o1, "structure", structureId);
    WithKeeps(n, o1, "structure", structureId, "function", m.locators);
    var o2 := With(n, o1, "structure", structureId).value;
    WithKeeps(n, o2, "invoice", invoiceId, "function", m.locators);
    WithKeeps(n, o2, "invoice", invoiceId, "structure", m.locators);
  }

  lemma NewOrderWritten(n: Node, q: OrderArgs, functionId: string, structureId: string, invoiceId: string, m: Mesh)
    requires Ready(n) && Stable(functionId) && Stable(structureId) && Stable(invoiceId)
    requires IsNiOrDigest(functionId) && IsNiOrDigest(structureId)
    ensures NewOrder(n, q, functionId, structureId, invoiceId).Ok?
    ensures Written(m, NewOrder(n, q, functionId, structureId, invoiceId).value)
  {
    NewOrderReads(n, q, functionId, structureId, invoiceId, m.locators);
    NewOrderReads(n, q, functionId, structureId, invoiceId, NO_LOCATORS);
    NewOrderCommits(n, q, functionId, structureId, invoiceId, m);
  }

  ghost predicate NewOrderRead(n: Node, q: OrderArgs, functionId: string, structureId: string, invoiceId: string,
                               loc: Locators) {
    && NewOrder(n, q, functionId, structureId, invoiceId).Ok?
    && var order := NewOrder(n, q, functionId, structureId, invoiceId).value;
       && RefId(order, "function", loc) == Ok(Some(functionId))
       && RefId(order, "structure", loc) == Ok(Some(structureId))
       && RefId(order, "invoice", loc) == Ok(Some(invoiceId))
  }

  lemma NewOrderReads(n: Node, q: OrderArgs, functionId: string, structureId: string, invoiceId: string, loc: Locators)
    requires Ready(n) && Stable(functionId) && Stable(structureId) && Stable(invoiceId)
    ensures NewOrderRead(n, q, functionId, structureId, invoiceId, loc)
  {
    PlainStems();
    var o0 := NewShell(n, q);
    WithReads(n, o0, "function", functionId, loc);
    var o1 := With(n, o0, "function", functionId).value;
    WithReads(n, o1, "structure", structureId, loc);
    WithKeeps(n, o1, "structure", structureId, "function", loc);
    var o2 := With(n, o1, "structure", structureId).value;
    WithReads(n, o2, "invoice", invoiceId, loc);
    WithKeeps(n, o2, "invoice", invoiceId, "function", loc);
    WithKeeps(n, o2, "invoice", invoiceId, "structure", loc);
  }

  /** The new Invoice can be written, and has an id. */
  lemma NewInvoice(n: Node, q: OrderArgs)
    requires Ready(n) && Stable(q.dataId)
    ensures With(n, [], "data", q.dataId).Ok?
    ensures forall loc :: RefId(With(n, [], "data", q.dataId).value, "data", loc) == Ok(Some(q.dataId))
  {
    forall loc ensures With(n, [], "data", q.dataId).Ok?
      && RefId(With(n, [], "data", q.dataId).value, "data", loc) == Ok(Some(q.dataId))
    {
      WithReads(n, [], "data", q.dataId, loc);
    }
    WithReads(n, [], "data", q.dataId, NO_LOCATORS);
  }

  /** A new mint refers to its Function, Structure, Invoice and data. */
  lemma NewMintReads(n: Node, q: OrderArgs, pairing: Dict, fn: Dict, m: Mesh, loc: Locators)
    requires Ready(n) && Stable(q.dataId)
    ensures NewMint(n, q, pairing, fn).Ok?
    ensures var r := NewMint(n, q, pairing, fn).value;
      && Written(m, r.order) && r.orderId == JsonId(n, Obj(r.order))
      && RefId(r.invoice, "data", loc) == Ok(Some(q.dataId))
      && RefId(r.order, "invoice", loc) == Ok(Some(JsonId(n, Obj(r.invoice))))
      && RefId(r.order, "function", loc) == Ok(Some(JsonId(n, Obj(fn))))
      && RefId(r.order, "structure", loc) == Ok(Some(JsonId(n, Obj(pairing))))
  {
    NewInvoice(n, q);
    var invoice := With(n, [], "data", q.dataId).value;
    JsonIdStable(n, Obj(fn));
    JsonIdStable(n, Obj(pairing));
    JsonIdStable(n, Obj(invoice));
    NewOrderWritten(n, q, JsonId(n, Obj(fn)), JsonId(n, Obj(pairing)), JsonId(n, Obj(invoice)), m);
    NewOrderReads(n, q, JsonId(n, Obj(fn)), JsonId(n, Obj(pairing)), JsonId(n, Obj(invoice)), loc);
  }

  /** The created Order refers to the Function, the Structure and the Invoice it was made from, and is as this code
      writes
      Orders, so that a chain can start from it. */
  lemma CreatedReads(n: Node, q: OrderArgs, m: Mesh, loc: Locators)
    requires Ready(n) && CreateOrder(n, q).Ok? && CanonicalArgs(q)
    ensures CreatedPairing(n, q).Ok?
    ensures var r := CreateOrder(n, q).value.value;
      && Written(m, r.order) && r.orderId == JsonId(n, Obj(r.order))
      && RefId(r.invoice, "data", loc) == Ok(Some(q.dataId))
      && RefId(r.order, "invoice", loc) == Ok(Some(JsonId(n, Obj(r.invoice))))
      && RefId(r.order, "function", loc) == Ok(Some(JsonId(n, Obj(CreatedFunction(n, q)))))
      && RefId(r.order, "structure", loc) == Ok(Some(JsonId(n, Obj(CreatedPairing(n, q).value))))
  {
    CreatedOf(n, q);
    NewMintReads(n, q, CreatedPairing(n, q).value, CreatedFunction(n, q), m, loc);
  }

  /** What the Function of a created Order is made of: two parts under their own ids and the two sources, each callable
      bound to its own source and in its own slot. */
  lemma CreatedSlots(n: Node, q: OrderArgs, loc: Locators) returns (process: Dict, infra: Dict)
    requires Ready(n) && CreateOrder(n, q).Ok? && CanonicalArgs(q)
    ensures var (fn, puts) := (CreatedFunction(n, q), CreateOrder(n, q).value.puts);
      && RefId(CreateOrder(n, q).value.value.order, "function", loc) == Ok(Some(JsonId(n, Obj(fn))))
      && n.dumps(Obj(fn)) in puts && n.dumps(Obj(process)) in puts && n.dumps(Obj(infra)) in puts
      && RefId(fn, "process", loc) == Ok(Some(JsonId(n, Obj(process))))
      && RefId(fn, "infrafunction", loc) == Ok(Some(JsonId(n, Obj(infra))))
      && RefId(fn, "process_source", loc) == Ok(Some(q.processSource))
      && RefId(fn, "infrafunction_source", loc) == Ok(Some(q.infraSource))
    ensures Bound(n, process, "ingress_subproc", q.ingress, q.processSource, loc)
      && Bound(n, process, "integrated_subproc", q.integrated, q.processSource, loc)
      && Bound(n, process, "egress_subproc", q.egress, q.processSource, loc)
      && Bound(n, process, "integration_cache_subproc", q.cache, q.processSource, loc)
      && Bound(n, infra, "infrafunction_subproc", q.infra, q.infraSource, loc)
  {
    var r := CreatedRecipe(n, q);
    CreatedMakes(n, q);
    CreatedReads(n, q, n.mesh, loc);
    CreatedPuts(n, q);
    PartsSources(n, q);
    PairFunctionReads(n, r.parts, loc);
    CookedParts(r);
    ProcessRead(n, r.f, r.parts.processSource, [], loc);
    InfraRead(n, r.f, r.parts.infraSource, [], loc);
    process, infra := r.parts.process, r.parts.infra;
  }

  /** The slot refers to the leaf that binds the callable to the source. */
  ghost predicate Bound(n: Node, d: Dict, stem: string, callable: string, source: string, loc: Locators)
    requires IsSha(n.sha)
  {
    RefId(d, stem, loc) == Ok(Some(NiText(n.sha, n.bind(callable, source))))
  }

  /** The name of a directory is the last component of its path, slashes at the end aside. */
  lemma BaseNameIs(front: string, name: string, slashes: string)
    requires name != [] && '/' !in name && forall i :: 0 <= i < |slashes| ==> slashes[i] == '/'
    ensures BaseName(front + "/" + name + slashes) == name
  {
    assert name[|name| - 1] in name;
    SlashesStripped(front + "/" + name, slashes);
    assert front + ['/'] + name == front + "/" + name;
    LastSegment(front, name);
  }

  lemma ShellFieldsAre(n: Node, q: OrderArgs)
    ensures var shell := NewShell(n, q);
      && Get(shell, "structure_filepath") == Some(Str(BaseName(q.filepath)))
      && Get(shell, "JOB_HOME") == Some(q.jobHome)
      && Get(shell, "endpoint") == Some(Str(if q.endpoint.Some? then q.endpoint.value else n.endpoint))
  {
    var shell := NewShell(n, q);
    assert |"structure_filepath"| == 18 && |"JOB_HOME"| == 8 && |"endpoint"| == 8 && "JOB_HOME"[0] == 'J';
    assert "endpoint"[0] == 'e';
    assert shell[1..][0] == shell[1] && shell[1..][1..][0] == shell[2];
    assert Get(shell, "JOB_HOME") == Get(shell[1..], "JOB_HOME");
    assert Get(shell, "endpoint") == Get(shell[1..], "endpoint") == Get(shell[1..][1..], "endpoint");
  }

  /** The fields of a created Order beside its references: the name of the Structure directory, the job home, and the
      given endpoint or the node's own. */
  lemma CreatedFields(n: Node, q: OrderArgs)
    requires IsSha(n.sha) && CreateOrder(n, q).Ok?
    ensures var order := CreateOrder(n, q).value.value.order;
      && Get(order, "structure_filepath") == Some(Str(BaseName(q.filepath)))
      && Get(order, "JOB_HOME") == Some(q.jobHome)
      && Get(order, "endpoint") == Some(Str(if q.endpoint.Some? then q.endpoint.value else n.endpoint))
  {
    ShellFieldsAre(n, q);
    ShellFields();
    CreatedKeeps(n, q, "structure_filepath");
    CreatedKeeps(n, q, "JOB_HOME");
    CreatedKeeps(n, q, "endpoint");
  }

  lemma CreatedKeeps(n: Node, q: OrderArgs, k: string)
    requires IsSha(n.sha) && CreateOrder(n, q).Ok? && NoRefField(k)
    ensures Get(CreateOrder(n, q).value.value.order, k) == Get(NewShell(n, q), k)
  {
    CreatedOf(n, q);
    MintKeeps(n, q, CreatedPairing(n, q).value, PairFunction(n, CreatedParts(n, q).value.value).value, k);
  }

  lemma MintKeeps(n: Node, q: OrderArgs, pairing: Dict, fn: Dict, k: string)
    requires IsSha(n.sha) && NewMint(n, q, pairing, fn).Ok? && NoRefField(k)
    ensures Get(NewMint(n, q, pairing, fn).value.order, k) == Get(NewShell(n, q), k)
  {
    var invoice := With(n, [], "data", q.dataId).value;
    OrderKeeps(n, q, JsonId(n, Obj(fn)), JsonId(n, Obj(pairing)), JsonId(n, Obj(invoice)), k);
  }

  lemma OrderKeeps(n: Node, q: OrderArgs, functionId: string, structureId: string, invoiceId: string, k: string)
    requires NewOrder(n, q, functionId, structureId, invoiceId).Ok?
    requires NoRefField(k)
    ensures Get(NewOrder(n, q, functionId, structureId, invoiceId).value, k) == Get(NewShell(n, q), k)
  {
    ShellKeys(k, "function");
    ShellKeys(k, "structure");
    ShellKeys(k, "invoice");
    var o0 := NewShell(n, q);
    WithFrame(n, o0, "function", functionId, k);
    var o1 := With(n, o0, "function", functionId).value;
    WithFrame(n, o1, "structure", structureId, k);
    WithFrame(n, With(n, o1, "structure", structureId).value, "invoice", invoiceId, k);
  }

  lemma ShellFields()
    ensures NoRefField("structure_filepath") && NoRefField("JOB_HOME") && NoRefField("endpoint")
    ensures "structure_filepath" != FLAT && "JOB_HOME" != FLAT && "endpoint" != FLAT
  {
    assert "JOB_HOME"[7] == 'E' && "uri"[2] == 'i' && "_cid"[3] == 'd';
    assert "structure_filepath"[17] == 'h' && "endpoint"[7] == 't' && "content_id"[9] == 'd';
    assert |FLAT| == 4 && |"JOB_HOME"| == 8 && |"endpoint"| == 8;
  }

  lemma ShellKeys(k: string, stem: string)
    requires NoRefField(k)
    ensures k != UriField(stem) && k != CidField(stem)
  {
    FieldEnds(stem);
  }

  /** The Structure pairing of a created Order has the ids of the directory's pairing. */
  lemma CreatedPairingIds(n: Node, q: OrderArgs)
    requires Ready(n) && SoundLocators(n.mesh.locators) && n.pairing(q.filepath).Ok?
    requires IdsOfPairing(n, n.pairing(q.filepath).value).Ok?
    ensures CreatedPairing(n, q).Ok?
    ensures Settled(n, IdsOfPairing(n, n.pairing(q.filepath).value).value)
         == IdsOfPairing(n, CreatedPairing(n, q).value)
  {
    RewritesRead(n, n.pairing(q.filepath).value, IdsOfPairing(n, n.pairing(q.filepath).value).value);
  }

  /** A creation fails only where the directory has no Structure pairing or an id in it is malformed. */
  lemma CreatesIff(n: Node, q: OrderArgs)
    requires Ready(n) && CanonicalArgs(q)
    ensures CreateOrder(n, q).Ok? <==> CreatedPairing(n, q).Ok?
  {
    AllGiven(q);
    AllReplaced(n, ProcessSlots(Callables(q)), q.processSource, [], []);
    AllReplaced(n, InfraSlots(Callables(q)), q.infraSource, [], []);
    FillParts(n, Callables(q), q.processSource, q.infraSource, [], []);
    var parts := CreatedParts(n, q).value.value;
    PairFunctionReads(n, parts, NO_LOCATORS);
    if CreatedPairing(n, q).Ok? {
      NewMintReads(n, q, CreatedPairing(n, q).value, PairFunction(n, parts).value, n.mesh, NO_LOCATORS);
    }
  }

  /** What a creation puts. */
  lemma CreatedPuts(n: Node, q: OrderArgs)
    requires IsSha(n.sha) && CreateOrder(n, q).Ok?
    ensures CreatedPairing(n, q).Ok?
    ensures var (parts, puts) := (CreatedRecipe(n, q).parts, CreateOrder(n, q).value.puts);
      && n.dumps(Obj(parts.process)) in puts && n.dumps(Obj(parts.infra)) in puts
      && n.dumps(Obj(CreatedFunction(n, q))) in puts && n.dumps(Obj(CreatedPairing(n, q).value)) in puts
      && n.dumps(Obj(CreateOrder(n, q).value.value.invoice)) in puts
      && n.dumps(Obj(CreateOrder(n, q).value.value.order)) in puts
  {
    CreatedOf(n, q);
    var parts, pairing := CreatedParts(n, q).value, CreatedPairing(n, q).value;
    var minted := CreateOrder(n, q).value.value;
    var first, last := [n.dumps(Obj(pairing))], [n.dumps(Obj(minted.invoice)), n.dumps(Obj(minted.order))];
    PutsConcat(first, parts.puts, FunctionPuts(n, parts.value, CreatedFunction(n, q)), last);
    InFunctionPuts(n, parts.value, CreatedFunction(n, q));
    assert first[0] in first && last[0] in last && last[1] in last;
  }

  lemma PutsConcat(a: seq<Bytes>, b: seq<Bytes>, c: seq<Bytes>, d: seq<Bytes>)
    ensures forall x :: x in a || x in c || x in d ==> x in a + b + c + d
  {
  }

  lemma InFunctionPuts(n: Node, p: FunctionParts, fn: Dict)
    ensures n.dumps(Obj(p.process)) in FunctionPuts(n, p, fn) && n.dumps(Obj(p.infra)) in FunctionPuts(n, p, fn)
      && n.dumps(Obj(fn)) in FunctionPuts(n, p, fn)
  {
    var puts := FunctionPuts(n, p, fn);
    assert puts[0] in puts && puts[1] in puts && puts[2] in puts;
  }
}
