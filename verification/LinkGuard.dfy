/** When the link operations succeed (cats/network/order.py). */
module LinkGuard {
  import opened Cas
  import opened ContentRef
  import opened FunctionRebuild
  import opened InspectTree
  import opened Json
  import opened Lineage
  import opened Order
  import opened Wrappers

  /** The reference has an id. */
  ghost predicate Readable(n: Node, d: Dict, stem: string) {
    match RefId(d, stem, n.mesh.locators)
    case Ok(Some(id)) => id != []
    case _ => false
  }

  lemma RequireIff(n: Node, d: Dict, stem: string)
    ensures Require(n, d, stem).Ok? <==> Readable(n, d, stem)
  {
  }

  // --- Function --------------------------------------------------------------------------------------

  /** Which slots are replaced or have an id to carry. */
  ghost function There(n: Node, slots: Slots, prev: Dict): (there: seq<bool>)
    ensures |there| == |slots|
  {
    if slots == [] then []
    else [slots[0].1.Some? || Readable(n, prev, slots[0].0)] + There(n, slots[1..], prev)
  }

  ghost predicate All(there: seq<bool>) {
    forall i :: 0 <= i < |there| ==> there[i]
  }

  lemma AllCons(first: bool, rest: seq<bool>)
    ensures All([first] + rest) <==> first && All(rest)
  {
    var both := [first] + rest;
    if All(both) {
      assert both[0];
      forall i | 0 <= i < |rest| ensures rest[i] {
        assert both[i + 1];
      }
    }
  }

  ghost predicate SlotsReadable(n: Node, slots: Slots, prev: Dict) {
    All(There(n, slots, prev))
  }

  lemma SlotIff(n: Node, stem: string, replacement: Option<string>, source: string, prev: Dict)
    requires IsSha(n.sha)
    ensures SlotId(n, stem, replacement, source, prev).Ok? <==> replacement.Some? || Readable(n, prev, stem)
  {
    RequireIff(n, prev, stem);
  }

  lemma {:induction false} FillSlotsIff(n: Node, slots: Slots, source: string, prev: Dict, doc: Dict)
    requires Ready(n) && CarriedSlots(n, slots, prev)
    ensures FillSlots(n, slots, source, prev, doc).Ok? <==> SlotsReadable(n, slots, prev)
    decreases |slots|
  {
    if slots != [] {
      var (stem, replacement) := slots[0];
      AllCons(replacement.Some? || Readable(n, prev, stem), There(n, slots[1..], prev));
      SlotIff(n, stem, replacement, source, prev);
      if SlotId(n, stem, replacement, source, prev).Ok? {
        SlotIdIs(n, stem, replacement, source, prev);
        var id := SlotId(n, stem, replacement, source, prev).value.value;
        WithReads(n, doc, stem, id, n.mesh.locators);
        FillSlotsIff(n, slots[1..], source, prev, With(n, doc, stem, id).value);
      }
    }
  }

  /** Every slot of the two documents is replaced, or has an id that can be carried. */
  ghost predicate SlotsThere(n: Node, process: Dict, infra: Dict, f: FunctionArgs) {
    && (f.ingress.Some? || Readable(n, process, "ingress_subproc"))
    && (f.integrated.Some? || Readable(n, process, "integrated_subproc"))
    && (f.egress.Some? || Readable(n, process, "egress_subproc"))
    && (f.cache.Some? || Readable(n, process, "integration_cache_subproc"))
    && (f.infra.Some? || Readable(n, infra, "infrafunction_subproc"))
  }

  lemma ProcessSlotsThere(n: Node, process: Dict, f: FunctionArgs)
    ensures SlotsReadable(n, ProcessSlots(f), process) <==>
      && (f.ingress.Some? || Readable(n, process, "ingress_subproc"))
      && (f.integrated.Some? || Readable(n, process, "integrated_subproc"))
      && (f.egress.Some? || Readable(n, process, "egress_subproc"))
      && (f.cache.Some? || Readable(n, process, "integration_cache_subproc"))
  {
    var slots := ProcessSlots(f);
    ThereAt(n, slots, process, 0);
    ThereAt(n, slots, process, 1);
    ThereAt(n, slots, process, 2);
    ThereAt(n, slots, process, 3);
    AllFour(There(n, slots, process));
  }

  lemma {:induction false} ThereAt(n: Node, slots: Slots, prev: Dict, i: nat)
    requires i < |slots|
    ensures There(n, slots, prev)[i] <==> slots[i].1.Some? || Readable(n, prev, slots[i].0)
  {
    if i > 0 {
      ThereAt(n, slots[1..], prev, i - 1);
    }
  }

  lemma AllFour(there: seq<bool>)
    requires |there| == 4
    ensures All(there) <==> there[0] && there[1] && there[2] && there[3]
  {
  }

  lemma InfraSlotsThere(n: Node, infra: Dict, f: FunctionArgs)
    ensures SlotsReadable(n, InfraSlots(f), infra) <==> f.infra.Some? || Readable(n, infra, "infrafunction_subproc")
  {
    ThereAt(n, InfraSlots(f), infra, 0);
    assert InfraSlots(f)[0] == ("infrafunction_subproc", f.infra);
  }

  lemma FillBoth(n: Node, f: FunctionArgs, processSource: string, infraSource: string, process: Dict, infra: Dict)
    requires IsSha(n.sha)
    ensures Fill(n, f, processSource, infraSource, process, infra).Ok? <==>
      && FillSlots(n, ProcessSlots(f), processSource, process, []).Ok?
      && FillSlots(n, InfraSlots(f), infraSource, infra, []).Ok?
  {
  }

  lemma FillIff(n: Node, f: FunctionArgs, processSource: string, infraSource: string, process: Dict, infra: Dict)
    requires Ready(n) && CarriedSlots(n, ProcessSlots(f), process) && CarriedSlots(n, InfraSlots(f), infra)
    ensures Fill(n, f, processSource, infraSource, process, infra).Ok? <==> SlotsThere(n, process, infra, f)
  {
    FillSlotsIff(n, ProcessSlots(f), processSource, process, []);
    FillSlotsIff(n, InfraSlots(f), infraSource, infra, []);
    ProcessSlotsThere(n, process, f);
    InfraSlotsThere(n, infra, f);
    FillBoth(n, f, processSource, infraSource, process, infra);
  }

  lemma PartsIff(n: Node, prev: Dict, f: FunctionArgs)
    requires Ready(n) && StableFunction(n, prev, f)
    ensures Parts(n, prev, f).Ok? <==>
      && Readable(n, prev, "process_source") && Readable(n, prev, "infrafunction_source")
      && SlotsThere(n, CatStem(n, prev, "process").value, CatStem(n, prev, "infrafunction").value, f)
  {
    RequireIff(n, prev, "process_source");
    RequireIff(n, prev, "infrafunction_source");
    if Require(n, prev, "process_source").Ok? && Require(n, prev, "infrafunction_source").Ok? {
      FillIff(n, f, Require(n, prev, "process_source").value, Require(n, prev, "infrafunction_source").value,
              CatStem(n, prev, "process").value, CatStem(n, prev, "infrafunction").value);
    }
  }

  /** A Function whose Process and InfraFunction can be read, with ids that can be carried, is rebuilt exactly when both
      sources have an id and so has every slot that is not replaced. */
  lemma RebuildIff(n: Node, prev: Dict, f: FunctionArgs)
    requires Ready(n) && StableFunction(n, prev, f)
    ensures RebuildFunction(n, prev, f).Ok? <==>
      && Readable(n, prev, "process_source") && Readable(n, prev, "infrafunction_source")
      && SlotsThere(n, CatStem(n, prev, "process").value, CatStem(n, prev, "infrafunction").value, f)
  {
    PartsIff(n, prev, f);
    if Parts(n, prev, f).Ok? {
      PartsRead(n, prev, f, n.mesh.locators);
      PairFunctionReads(n, Parts(n, prev, f).value.value, n.mesh.locators);
    }
  }

  // --- the operations --------------------------------------------------------------------------------

  /** The Function half of a step. `linkOrder` wants the prior id even when it replaces it. */
  ghost predicate FunctionThere(n: Node, order: Dict, link: Link)
    requires IsSha(n.sha)
  {
    && (link.ByProcess? || Readable(n, order, "function"))
    && (CarriesFunction(link) ||
        (NestedDoc(order, "function").Ok? && RebuildFunction(n, NestedDoc(order, "function").value, link.f).Ok?))
  }

  /** The Structure half, with a name for the new Structure. */
  ghost predicate StructureThere(n: Node, order: Dict, link: Link) {
    && (link.ByStructure? || Readable(n, order, "structure"))
    && (CarriesStructure(link) ||
        (&& NestedDoc(order, "structure").Ok? && ResolvePairing(n, NestedDoc(order, "structure").value, link.s).Ok?
         && (link.s.filepathName.Some? || link.s.filepath.Some? || Has(order, "structure_filepath"))))
  }

  lemma NewStructureIff(n: Node, order: Dict, s: StructureArgs)
    requires IsSha(n.sha)
    ensures NewStructure(n, order, s).Ok? <==>
      && NestedDoc(order, "structure").Ok? && ResolvePairing(n, NestedDoc(order, "structure").value, s).Ok?
      && (s.filepathName.Some? || s.filepath.Some? || Has(order, "structure_filepath"))
  {
    NameIff(order, s);
  }

  lemma NameIff(order: Dict, s: StructureArgs)
    ensures StructureName(order, s).Ok? <==>
      s.filepathName.Some? || s.filepath.Some? || Has(order, "structure_filepath")
  {
  }

  lemma RebuiltIff(n: Node, order: Dict, f: FunctionArgs)
    requires IsSha(n.sha)
    ensures RebuiltFunction(n, order, f).Ok? <==>
      NestedDoc(order, "function").Ok? && RebuildFunction(n, NestedDoc(order, "function").value, f).Ok?
  {
  }

  lemma CarriedIff(n: Node, order: Dict)
    requires IsSha(n.sha)
    ensures CarriedFunction(n, order).Ok? <==> Readable(n, order, "function")
    ensures CarriedStructure(n, order).Ok? <==> Readable(n, order, "structure")
  {
    RequireIff(n, order, "function");
    RequireIff(n, order, "structure");
  }

  /** The two halves as the operation works them out. */
  ghost function FunctionHalf(n: Node, order: Dict, link: Link): Result<Put<string>>
    requires IsSha(n.sha)
  {
    match link
    case ByProcess(f) => RebuiltFunction(n, order, f)
    case ByStructure(s) => CarriedFunction(n, order)
    case ByOrder(f, s) => OrderFunction(n, order, f)
  }

  ghost function StructureHalf(n: Node, order: Dict, link: Link): Result<Put<(string, Option<Json>)>>
    requires IsSha(n.sha)
  {
    match link
    case ByProcess(f) => CarriedStructure(n, order)
    case ByStructure(s) => NewStructure(n, order, s)
    case ByOrder(f, s) => OrderStructure(n, order, s)
  }

  lemma FunctionHalfIff(n: Node, order: Dict, link: Link)
    requires IsSha(n.sha)
    ensures FunctionHalf(n, order, link).Ok? <==> FunctionThere(n, order, link)
  {
    CarriedIff(n, order);
    if !link.ByStructure? {
      RebuiltIff(n, order, link.f);
    }
  }

  lemma StructureHalfIff(n: Node, order: Dict, link: Link)
    requires IsSha(n.sha)
    ensures StructureHalf(n, order, link).Ok? <==> StructureThere(n, order, link)
  {
    CarriedIff(n, order);
    if !link.ByProcess? {
      NewStructureIff(n, order, link.s);
    }
  }

  lemma StepHalves(n: Node, invoice: Dict, order: Dict, link: Link)
    requires IsSha(n.sha)
    ensures Step(n, invoice, order, link)
         == Assemble(n, order, FunctionHalf(n, order, link), StructureHalf(n, order, link), Require(n, invoice, "data"))
  {
  }

  /** With all three parts there and ids that can be carried, nothing else fails. */
  lemma AssembleIff(n: Node, order: Dict, f: Result<Put<string>>, s: Result<Put<(string, Option<Json>)>>,
                    data: Result<string>)
    requires Ready(n)
    requires f.Ok? ==> Stable(f.value.value)
    requires s.Ok? ==> Stable(s.value.value.0)
    requires data.Ok? ==> Stable(data.value)
    ensures Assemble(n, order, f, s, data).Ok? <==> f.Ok? && s.Ok? && data.Ok?
  {
    if f.Ok? && s.Ok? && data.Ok? {
      MintedReads(n, order, f.value.value, s.value.value.0, data.value, s.value.value.1, n.mesh.locators);
    }
  }

  lemma HalvesStable(n: Node, order: Dict, link: Link)
    requires IsSha(n.sha)
    requires StableRef(Del(order, FLAT), "function", n.mesh.locators)
      && StableRef(Del(order, FLAT), "structure", n.mesh.locators)
    ensures FunctionHalf(n, order, link).Ok? ==> Stable(FunctionHalf(n, order, link).value.value)
    ensures StructureHalf(n, order, link).Ok? ==> Stable(StructureHalf(n, order, link).value.value.0)
  {
    var f, s := FunctionHalf(n, order, link), StructureHalf(n, order, link);
    if f.Ok? {
      FunctionHalfOf(n, order, link);
      ChosenFunctionStable(n, order, link, f.value.value);
    }
    if s.Ok? {
      StructureHalfOf(n, order, link);
      ChosenStructureStable(n, order, link, s.value.value.0, s.value.value.1);
    }
  }

  lemma FunctionHalfOf(n: Node, order: Dict, link: Link)
    requires IsSha(n.sha) && FunctionHalf(n, order, link).Ok?
    ensures FunctionOf(n, order, link) == FunctionHalf(n, order, link)
  {
  }

  lemma StructureHalfOf(n: Node, order: Dict, link: Link)
    requires IsSha(n.sha) && StructureHalf(n, order, link).Ok?
    ensures StructureOf(n, order, link) == StructureHalf(n, order, link)
  {
  }

  lemma StepIff(n: Node, invoice: Dict, order: Dict, link: Link)
    requires Ready(n) && StableRef(Del(invoice, FLAT), "data", n.mesh.locators)
    requires StableRef(Del(order, FLAT), "function", n.mesh.locators)
      && StableRef(Del(order, FLAT), "structure", n.mesh.locators)
    ensures Step(n, invoice, order, link).Ok? <==>
      Readable(n, invoice, "data") && FunctionThere(n, order, link) && StructureThere(n, order, link)
  {
    var f, s, data := FunctionHalf(n, order, link), StructureHalf(n, order, link), Require(n, invoice, "data");
    StepHalves(n, invoice, order, link);
    HalvesStable(n, order, link);
    if data.Ok? {
      RequiredStable(n, invoice, "data", data.value);
    }
    AssembleIff(n, order, f, s, data);
    RequireIff(n, invoice, "data");
    FunctionHalfIff(n, order, link);
    StructureHalfIff(n, order, link);
  }

  /** What a step asks for: `linkOrder` wants something. */
  predicate Asks(link: Link) {
    link.ByOrder? ==> AsksFunction(link.f) || AsksStructure(link.s)
  }

  lemma LinkedIs(n: Node, bom: Dict, link: Link)
    requires IsSha(n.sha)
    ensures Linked(n, bom, link).Ok? <==>
      && Asks(link) && PriorRun(n, bom).Ok?
      && Step(n, PriorRun(n, bom).value.0, PriorRun(n, bom).value.1, link).Ok?
  {
  }

  /** A link step over a prior run whose ids can be carried succeeds exactly when it asks for something, the Invoice has
      a data id, and the prior Order has what the step carries and what it changes. */
  lemma LinkIff(n: Node, bom: Dict, link: Link)
    requires Ready(n) && StoredNoFlat(n.mesh) && StableRun(n.mesh, bom)
    ensures Linked(n, bom, link).Ok? <==>
      && Asks(link) && PriorRun(n, bom).Ok?
      && var (invoice, order) := PriorRun(n, bom).value;
         Readable(n, invoice, "data") && FunctionThere(n, order, link) && StructureThere(n, order, link)
  {
    LinkedIs(n, bom, link);
    if PriorRun(n, bom).Ok? {
      PriorIsStored(n, bom, 4);
      StepIff(n, PriorRun(n, bom).value.0, PriorRun(n, bom).value.1, link);
    }
  }
}
