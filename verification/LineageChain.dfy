/** Chains of runs and link steps (cats/network/order.py), and the cross-run assertions they meet
    (cats/network/registry/lineage.py). */
module LineageChain {
  import opened AddressStore
  import opened CarriedRefs
  import opened Cas
  import opened ContentRef
  import opened Digest
  import opened Hashlink
  import opened InspectTree
  import opened Json
  import opened Lineage
  import opened Order
  import opened Text
  import opened Wrappers

  // --- minted references commit ----------------------------------------------------------------------

  lemma MintCommits(n: Node, prior: Dict, c: Choice, r: Minted, m: Mesh)
    requires Ready(n) && Mints(n, prior, c, r) && Stable(c.functionId) && Stable(c.structureId) && Stable(c.dataId)
    ensures IsNiOrDigest(c.structureId) ==> CommittingRef(m, r.order, "structure")
    ensures IsNiOrDigest(c.functionId) ==> CommittingRef(m, r.order, "function")
  {
    PlainStems();
    var loc := m.locators;
    WithReads(n, [], "data", c.dataId, loc);
    var invoice := With(n, [], "data", c.dataId).value;
    JsonIdStable(n, Obj(invoice));
    var o0 := StripEbom(Del(prior, FLAT));
    WithReads(n, o0, "function", c.functionId, loc);
    var o1 := With(n, o0, "function", c.functionId).value;
    WithReads(n, o1, "structure", c.structureId, loc);
    WithKeeps(n, o1, "structure", c.structureId, "function", loc);
    var o2 := With(n, o1, "structure", c.structureId).value;
    WithReads(n, o2, "invoice", JsonId(n, Obj(invoice)), loc);
    WithKeeps(n, o2, "invoice", JsonId(n, Obj(invoice)), "structure", loc);
    WithKeeps(n, o2, "invoice", JsonId(n, Obj(invoice)), "function", loc);
    var o3 := With(n, o2, "invoice", JsonId(n, Obj(invoice))).value;
    TailKeeps(n, o3, c.name, "structure", loc);
    TailKeeps(n, o3, c.name, "function", loc);
    assert RefUri(r.order, "structure") == RefUri(o2, "structure")
      && RefUri(r.order, "function") == RefUri(o1, "function");
    if IsNiOrDigest(c.structureId) {
      WrittenCommits(n, o1, "structure", c.structureId);
    }
    if IsNiOrDigest(c.functionId) {
      WrittenCommits(n, o0, "function", c.functionId);
    }
  }

  // --- chains ----------------------------------------------------------------------------------------

  /** A finished run, read on some node, and the link step taken from it. */
  datatype Turn = Turn(n: Node, bom: Dict, link: Link)

  ghost predicate GoodNode(n: Node, loads: Loads) {
    Ready(n) && StoredNoFlat(n.mesh) && JsonCodec(n, loads) && VerifiedMesh(n, loads)
  }

  /** The step succeeds, and no other bytes have the digest of anything it puts. */
  ghost predicate GoodTurn(t: Turn, loads: Loads) {
    && GoodNode(t.n, loads)
    && Linked(t.n, t.bom, t.link).Ok? && Unforged(t.n.sha, Linked(t.n, t.bom, t.link).value.puts)
    && StoredRun(t.n.mesh, t.bom).Some? && StableRef(OutputInvoice(t), "data", t.n.mesh.locators)
  }

  /** The Invoice and the Order of the run. */
  ghost function OutputInvoice(t: Turn): Dict
    requires StoredRun(t.n.mesh, t.bom).Some?
  {
    StoredRun(t.n.mesh, t.bom).value.0
  }

  ghost function RunOrder(t: Turn): Dict
    requires StoredRun(t.n.mesh, t.bom).Some?
  {
    StoredRun(t.n.mesh, t.bom).value.1
  }

  /** What the link step mints. */
  ghost function Next(t: Turn): Minted
    requires IsSha(t.n.sha) && Linked(t.n, t.bom, t.link).Ok?
  {
    Linked(t.n, t.bom, t.link).value.value
  }

  /** The later run executed the Order the earlier step minted: its Invoice refers to it. */
  ghost predicate Executes(t: Turn, later: Turn)
    requires IsSha(t.n.sha) && Linked(t.n, t.bom, t.link).Ok? && StoredRun(later.n.mesh, later.bom).Some?
  {
    && later.n.sha == t.n.sha && later.n.dumps == t.n.dumps
    && RefId(OutputInvoice(later), "order", later.n.mesh.locators) == Ok(Some(Next(t).orderId))
    && CommittingRef(later.n.mesh, OutputInvoice(later), "order")
  }

  /** The references of an Order that the next step relies on. */
  ghost predicate GoodOrder(t: Turn)
    requires StoredRun(t.n.mesh, t.bom).Some?
  {
    && StableRef(RunOrder(t), "function", t.n.mesh.locators) && StableRef(RunOrder(t), "structure", t.n.mesh.locators)
    && Checked(t.n.mesh, RunOrder(t), "structure")
  }

  ghost predicate Chain(ts: seq<Turn>, loads: Loads) {
    && (forall i :: 0 <= i < |ts| ==> GoodTurn(ts[i], loads))
    && (forall i :: 0 < i < |ts| ==> Executes(ts[i - 1], ts[i]))
    && (|ts| > 0 ==> GoodOrder(ts[0]))
  }

  lemma MintedOrderId(t: Turn, loads: Loads)
    requires GoodTurn(t, loads)
    ensures Next(t).orderId == JsonId(t.n, Obj(Next(t).order)) && NoCollision(t.n.sha, t.n.dumps(Obj(Next(t).order)))
  {
    LinkedStep(t.n, t.bom, t.link);
    var (invoice, order) := PriorRun(t.n, t.bom).value;
    StepOrderId(t.n, invoice, order, t.link);
  }

  lemma StepOrderId(n: Node, invoice: Dict, order: Dict, link: Link)
    requires IsSha(n.sha) && Step(n, invoice, order, link).Ok?
    ensures var r := Step(n, invoice, order, link).value;
      r.value.orderId == JsonId(n, Obj(r.value.order)) && n.dumps(Obj(r.value.order)) in r.puts
  {
    StepAssembles(n, invoice, order, link);
    AssemblePuts(n, order, FunctionOf(n, order, link), StructureOf(n, order, link), Require(n, invoice, "data"));
  }

  /** What was run is the very document that was minted. */
  lemma RanWhatWasMinted(t: Turn, later: Turn, loads: Loads)
    requires GoodTurn(t, loads) && GoodTurn(later, loads) && Executes(t, later)
    ensures RunOrder(later) == Next(t).order
  {
    MintedOrderId(t, loads);
    var j := Obj(Next(t).order);
    assert JsonId(later.n, j) == JsonId(t.n, j);
    ReadIsWritten(later.n, loads, OutputInvoice(later), "order", j);
  }

  lemma GoodRun(t: Turn, loads: Loads)
    requires GoodTurn(t, loads) && GoodOrder(t)
    ensures StableRun(t.n.mesh, t.bom)
  {
  }

  /** A reference that reads the same with and without a locator index, that can be carried, and that is read through
      a key which fixes its digest. */
  ghost predicate ReadsEverywhere(m: Mesh, d: Dict, stem: string) {
    && RefId(d, stem, NO_LOCATORS) == RefId(d, stem, m.locators)
    && (match RefId(d, stem, NO_LOCATORS) case Ok(Some(id)) => Stable(id) case _ => false)
    && Checked(m, d, stem)
  }

  /** The Function and Structure of an Order as this code writes them. */
  ghost predicate Written(m: Mesh, order: Dict) {
    ReadsEverywhere(m, order, "function") && ReadsEverywhere(m, order, "structure")
  }

  lemma WrittenIsGood(t: Turn)
    requires StoredRun(t.n.mesh, t.bom).Some? && Written(t.n.mesh, RunOrder(t))
    ensures GoodOrder(t)
  {
  }

  /** A minted Order is so, on any node. */
  lemma MintedIsGood(t: Turn, m: Mesh, loads: Loads)
    requires GoodTurn(t, loads) && GoodOrder(t)
    ensures Written(m, Next(t).order)
  {
    var n, link := t.n, t.link;
    GoodRun(t, loads);
    LinkedStep(n, t.bom, link);
    var (invoice, order) := PriorRun(n, t.bom).value;
    var c := StepChoice(n, invoice, order, link);
    PriorIsStored(n, t.bom, 4);
    ChoiceStable(n, invoice, order, link, c);
    ReadsGood(n, order, c, Next(t), m);
  }

  lemma ReadsGood(n: Node, order: Dict, c: Choice, r: Minted, m: Mesh)
    requires Ready(n) && Mints(n, order, c, r) && Stable(c.functionId) && Stable(c.structureId) && Stable(c.dataId)
    ensures Written(m, r.order)
  {
    MintsReads(n, order, c, r, m.locators);
    MintsReads(n, order, c, r, NO_LOCATORS);
    MintCommits(n, order, c, r, m);
  }

  lemma GoodNext(t: Turn, later: Turn, loads: Loads)
    requires GoodTurn(t, loads) && GoodTurn(later, loads) && Executes(t, later) && GoodOrder(t)
    ensures Written(later.n.mesh, RunOrder(later)) && GoodOrder(later)
  {
    RanWhatWasMinted(t, later, loads);
    MintedIsGood(t, later.n.mesh, loads);
    WrittenIsGood(later);
  }

  /** The invariant of a chain: every Order can be carried on, and every one but the first is as this code writes it. */
  lemma {:induction false} ChainGood(ts: seq<Turn>, loads: Loads, i: nat)
    requires Chain(ts, loads) && i < |ts|
    ensures GoodOrder(ts[i]) && (i > 0 ==> Written(ts[i].n.mesh, RunOrder(ts[i])))
  {
    if i > 0 {
      ChainGood(ts, loads, i - 1);
      ChainStep(ts, loads, i);
    }
  }

  lemma ChainStep(ts: seq<Turn>, loads: Loads, i: nat)
    requires Chain(ts, loads) && 0 < i < |ts| && GoodOrder(ts[i - 1])
    ensures GoodOrder(ts[i]) && Written(ts[i].n.mesh, RunOrder(ts[i]))
  {
    GoodNext(ts[i - 1], ts[i], loads);
  }

  /** Along every chain the data the next Order takes in is the data the prior run put out, and the Order that is
      then run is the minted one, referring to the Invoice with that data. */
  lemma ChainData(ts: seq<Turn>, loads: Loads, i: nat, loc: Locators)
    requires Chain(ts, loads) && i < |ts|
    ensures RefId(Next(ts[i]).invoice, "data", loc) == RefId(OutputInvoice(ts[i]), "data", ts[i].n.mesh.locators)
    ensures RefId(Next(ts[i]).order, "invoice", loc) == Ok(Some(JsonId(ts[i].n, Obj(Next(ts[i]).invoice))))
    ensures i + 1 < |ts| ==> RunOrder(ts[i + 1]) == Next(ts[i]).order
  {
    ChainGood(ts, loads, i);
    GoodRun(ts[i], loads);
    LinkLaw(ts[i].n, ts[i].bom, ts[i].link, loc);
    if i + 1 < |ts| {
      RanWhatWasMinted(ts[i], ts[i + 1], loads);
    }
  }

  /** Over any stretch of steps that do not ask for a Structure, the Structure id is the one it began with. */
  lemma {:induction false} StructureCarried(ts: seq<Turn>, loads: Loads, a: nat, b: nat, loc: Locators)
    requires Chain(ts, loads) && a <= b < |ts| && forall i :: a <= i <= b ==> CarriesStructure(ts[i].link)
    ensures RefId(Next(ts[b]).order, "structure", loc) == RefId(RunOrder(ts[a]), "structure", ts[a].n.mesh.locators)
    decreases b
  {
    ChainGood(ts, loads, b);
    GoodRun(ts[b], loads);
    LinkLaw(ts[b].n, ts[b].bom, ts[b].link, loc);
    if a < b {
      StructureCarried(ts, loads, a, b - 1, ts[b].n.mesh.locators);
      RanWhatWasMinted(ts[b - 1], ts[b], loads);
    }
  }

  /** Likewise for the Function. */
  lemma {:induction false} FunctionCarried(ts: seq<Turn>, loads: Loads, a: nat, b: nat, loc: Locators)
    requires Chain(ts, loads) && a <= b < |ts| && forall i :: a <= i <= b ==> CarriesFunction(ts[i].link)
    ensures RefId(Next(ts[b]).order, "function", loc) == RefId(RunOrder(ts[a]), "function", ts[a].n.mesh.locators)
    decreases b
  {
    ChainGood(ts, loads, b);
    GoodRun(ts[b], loads);
    LinkLaw(ts[b].n, ts[b].bom, ts[b].link, loc);
    if a < b {
      FunctionCarried(ts, loads, a, b - 1, ts[b].n.mesh.locators);
      RanWhatWasMinted(ts[b - 1], ts[b], loads);
    }
  }

  /** Every step of a chain that asks for another Structure gets one with another id. */
  lemma StructureChanged(ts: seq<Turn>, loads: Loads, i: nat, loc: Locators)
    requires Chain(ts, loads) && i < |ts| && !CarriesStructure(ts[i].link)
    ensures RefId(Next(ts[i]).order, "structure", loc) != RefId(RunOrder(ts[i]), "structure", ts[i].n.mesh.locators)
  {
    ChainGood(ts, loads, i);
    GoodRun(ts[i], loads);
    StructureMoves(ts[i].n, loads, ts[i].bom, ts[i].link, loc);
  }

  // --- the assertions --------------------------------------------------------------------------------

  /** The assertions read references without a locator index. */
  const NO_LOCATORS: Locators := _ => None

  datatype PairingMode = MutatedMode | CarriedMode

  /** `_require_stem_id`. */
  function StemId(d: Dict, stem: string): Result<string> {
    var id :- RefId(d, stem, NO_LOCATORS);
    if id.Some? && id.value != [] then EqualityId(id.value) else Err("missing ref")
  }

  predicate PairingHolds(prior: string, next: string, mode: PairingMode) {
    if mode.MutatedMode? then prior != next else prior == next
  }

  /** `assert_order_pairing_lineage` passes. */
  predicate PairingLineage(prior: Dict, next: Dict, function_: PairingMode, structure: PairingMode) {
    && StemId(prior, "function").Ok? && StemId(next, "function").Ok? && StemId(prior, "structure").Ok?
      && StemId(next, "structure").Ok?
    && PairingHolds(StemId(prior, "function").value, StemId(next, "function").value, function_)
    && PairingHolds(StemId(prior, "structure").value, StemId(next, "structure").value, structure)
  }

  /** `assert_invoice_data_chain` passes. */
  predicate InvoiceDataChain(prior: Dict, next: Dict) {
    StemId(prior, "data").Ok? && StemId(prior, "data") == StemId(next, "data")
  }

  /** The id of a reference can be read off it without a locator index. */
  predicate SelfNaming(d: Dict, stem: string, loc: Locators) {
    RefId(d, stem, NO_LOCATORS) == RefId(d, stem, loc)
  }

  lemma NoLocatorsSound()
    ensures SoundLocators(NO_LOCATORS)
  {
  }

  /** The assertions compare the ids as they are read. */
  lemma StemIdReads(d: Dict, stem: string)
    requires OrdinaryStem(stem)
    ensures StemId(d, stem).Ok? <==> (match RefId(d, stem, NO_LOCATORS) case Ok(Some(id)) => id != [] case _ => false)
    ensures StemId(d, stem).Ok? ==> RefId(d, stem, NO_LOCATORS) == Ok(Some(StemId(d, stem).value))
  {
    NoLocatorsSound();
    match RefId(d, stem, NO_LOCATORS) {
      case Ok(Some(id)) =>
        if id != [] {
          ReadStable(d, stem, NO_LOCATORS, id);
          ReadIsCanonical(d, stem, id);
        }
      case _ =>
    }
  }

  lemma ReadIsCanonical(d: Dict, stem: string, id: string)
    requires Stable(id) || StrippedString(Get(d, CidField(stem))) == Some(id)
    requires Stable(id) || IsHl(id) || IsHttpUri(id)
    ensures EqualityId(id) == Ok(id)
  {
    StrippedIsTrimmed(Get(d, CidField(stem)));
    if !IsNiOrDigest(id) {
      StripTwice(id);
    } else {
      NotUrlStable(id);
    }
  }

  lemma NotUrlStable(id: string)
    requires IsNiOrDigest(id) && (Stable(id) || IsHl(id) || IsHttpUri(id))
    ensures Stable(id)
  {
    var value := Strip(id);
    if IsHex64(Lower(value)) {
      assert Codec.IsHexChar(Lower(value)[0]) && Codec.IsHexChar(Lower(value)[1]);
    } else {
      assert value[0] == NI_PREFIX[0];
    }
  }

  /** `assert_invoice_data_chain` accepts a link step if and only if the run's Invoice names its data without help
      from the locator index. */
  lemma DataChainIff(ts: seq<Turn>, loads: Loads, i: nat)
    requires Chain(ts, loads) && i < |ts|
    ensures InvoiceDataChain(OutputInvoice(ts[i]), Next(ts[i]).invoice)
       <==> SelfNaming(OutputInvoice(ts[i]), "data", ts[i].n.mesh.locators)
  {
    ChainData(ts, loads, i, NO_LOCATORS);
    StemIdReads(OutputInvoice(ts[i]), "data");
    StemIdReads(Next(ts[i]).invoice, "data");
    NextDataThere(ts[i], loads);
  }

  lemma NextDataThere(t: Turn, loads: Loads)
    requires GoodTurn(t, loads)
    ensures match RefId(OutputInvoice(t), "data", t.n.mesh.locators) case Ok(Some(id)) => id != [] case _ => false
  {
    LinkedStep(t.n, t.bom, t.link);
    var (invoice, order) := PriorRun(t.n, t.bom).value;
    var c := StepChoice(t.n, invoice, order, t.link);
    PriorIsStored(t.n, t.bom, 4);
    RequireReads(t.n, invoice, "data", c.dataId);
    FlatHidesNothing(invoice, "data", t.n.mesh);
  }

  /** The id of the stem differs between the Order that was run and the one minted from it. */
  ghost predicate Moved(t: Turn, stem: string)
    requires IsSha(t.n.sha) && Linked(t.n, t.bom, t.link).Ok? && StoredRun(t.n.mesh, t.bom).Some?
  {
    RefId(Next(t).order, stem, NO_LOCATORS) != RefId(RunOrder(t), stem, NO_LOCATORS)
  }

  lemma WrittenStems(m: Mesh, order: Dict)
    requires Written(m, order)
    ensures StemId(order, "function").Ok? && StemId(order, "structure").Ok?
    ensures RefId(order, "function", NO_LOCATORS) == Ok(Some(StemId(order, "function").value))
    ensures RefId(order, "structure", NO_LOCATORS) == Ok(Some(StemId(order, "structure").value))
  {
    StableNotEmpty(RefId(order, "function", NO_LOCATORS).value.value);
    StableNotEmpty(RefId(order, "structure", NO_LOCATORS).value.value);
    StemIdReads(order, "function");
    StemIdReads(order, "structure");
  }

  lemma StableNotEmpty(id: string)
    requires Stable(id)
    ensures id != []
  {
  }

  /** A step from an Order that this code has written: the pairing assertion accepts exactly the modes that say what
      happened. */
  lemma PairingIff(t: Turn, loads: Loads, function_: PairingMode, structure: PairingMode)
    requires GoodTurn(t, loads) && Written(t.n.mesh, RunOrder(t))
    ensures PairingLineage(RunOrder(t), Next(t).order, function_, structure) <==>
      (function_.MutatedMode? <==> Moved(t, "function")) && (structure.MutatedMode? <==> Moved(t, "structure"))
  {
    WrittenIsGood(t);
    MintedIsGood(t, t.n.mesh, loads);
    WrittenStems(t.n.mesh, RunOrder(t));
    WrittenStems(t.n.mesh, Next(t).order);
  }

  /** So a step that carries Function and asks for a Structure always passes as (carried, mutated), and one that carries
      Structure passes as (mutated, carried) as far as the Structure goes. */
  lemma StructureModes(t: Turn, loads: Loads)
    requires GoodTurn(t, loads) && Written(t.n.mesh, RunOrder(t))
    ensures CarriesFunction(t.link) && !CarriesStructure(t.link) ==>
      PairingLineage(RunOrder(t), Next(t).order, CarriedMode, MutatedMode)
    ensures CarriesStructure(t.link) <==> !Moved(t, "structure")
    ensures CarriesFunction(t.link) ==> !Moved(t, "function")
  {
    WrittenIsGood(t);
    GoodRun(t, loads);
    PairingIff(t, loads, CarriedMode, MutatedMode);
    LinkLaw(t.n, t.bom, t.link, NO_LOCATORS);
    if !CarriesStructure(t.link) {
      StructureMoves(t.n, loads, t.bom, t.link, NO_LOCATORS);
    }
  }
}
