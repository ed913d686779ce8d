/** When rebuilding a Function changes its id, and when it does not (`_rebuild_function` of cats/network/order.py). */
module FunctionChange {
  import opened AddressStore
  import opened Cas
  import opened ContentRef
  import opened Digest
  import opened FunctionRebuild
  import opened InspectTree
  import opened Json
  import opened Lineage
  import opened Manifest
  import opened Order
  import opened Wrappers

  // --- the condition ---------------------------------------------------------------------------------

  /** A replacement that binds to the id its slot already has; a slot that is not replaced is the same anyway. */
  ghost predicate SlotSame(n: Node, stem: string, replacement: Option<string>, source: string, prev: Dict)
    requires IsSha(n.sha)
  {
    replacement.Some? ==>
      RefId(prev, stem, n.mesh.locators) == Ok(Some(NiText(n.sha, n.bind(replacement.value, source))))
  }

  ghost predicate ProcessSame(n: Node, f: FunctionArgs, source: string, prev: Dict)
    requires IsSha(n.sha)
  {
    && SlotSame(n, "ingress_subproc", f.ingress, source, prev)
    && SlotSame(n, "integrated_subproc", f.integrated, source, prev)
    && SlotSame(n, "egress_subproc", f.egress, source, prev)
    && SlotSame(n, "integration_cache_subproc", f.cache, source, prev)
  }

  ghost predicate InfraSame(n: Node, f: FunctionArgs, source: string, prev: Dict)
    requires IsSha(n.sha)
  {
    SlotSame(n, "infrafunction_subproc", f.infra, source, prev)
  }

  /** Every replacement binds to the id its slot of the Function already has. */
  ghost predicate NothingNew(n: Node, fn: Dict, f: FunctionArgs)
    requires IsSha(n.sha)
  {
    var processSource, infraSource := Require(n, fn, "process_source"), Require(n, fn, "infrafunction_source");
    var process, infra := CatStem(n, fn, "process"), CatStem(n, fn, "infrafunction");
    && processSource.Ok? && infraSource.Ok? && process.Ok? && infra.Ok?
    && ProcessSame(n, f, processSource.value, process.value) && InfraSame(n, f, infraSource.value, infra.value)
  }

  lemma SameReads(n: Node, prev: Dict, stem: string)
    ensures Require(n, Del(prev, FLAT), stem) == Require(n, prev, stem)
    ensures CatStem(n, Del(prev, FLAT), stem) == CatStem(n, prev, stem)
    ensures StableRef(Del(prev, FLAT), stem, n.mesh.locators) <==> StableRef(prev, stem, n.mesh.locators)
  {
    FlatHidesNothing(prev, stem, n.mesh);
  }

  // --- the same id means nothing new -----------------------------------------------------------------

  lemma CatIsStored(n: Node, fn: Dict, stem: string)
    requires CatStem(n, fn, stem).Ok?
    ensures StoredDoc(n.mesh, fn, stem) == Some(CatStem(n, fn, stem).value)
  {
  }

  /** A Function pairing refers to its parts through CAS paths. */
  lemma PairCommits(n: Node, p: FunctionParts, m: Mesh)
    requires Ready(n) && Stable(p.processSource) && Stable(p.infraSource)
    ensures PairFunction(n, p).Ok?
    ensures CommittingRef(m, PairFunction(n, p).value, "process")
      && CommittingRef(m, PairFunction(n, p).value, "infrafunction")
    ensures RefUri(PairFunction(n, p).value, "process").Some? && RefUri(PairFunction(n, p).value, "infrafunction").Some?
  {
    FunctionStems();
    var loc := m.locators;
    var process, infra := JsonId(n, Obj(p.process)), JsonId(n, Obj(p.infra));
    JsonIdStable(n, Obj(p.process));
    JsonIdStable(n, Obj(p.infra));
    WrittenCommits(n, [], "process", process);
    var d1 := With(n, [], "process", process).value;
    WrittenCommits(n, d1, "infrafunction", infra);
    WithKeeps(n, d1, "infrafunction", infra, "process", loc);
    var d2 := With(n, d1, "infrafunction", infra).value;
    WithReads(n, d2, "process_source", p.processSource, loc);
    WithKeeps(n, d2, "process_source", p.processSource, "process", loc);
    WithKeeps(n, d2, "process_source", p.processSource, "infrafunction", loc);
    var d3 := With(n, d2, "process_source", p.processSource).value;
    WithReads(n, d3, "infrafunction_source", p.infraSource, loc);
    WithKeeps(n, d3, "infrafunction_source", p.infraSource, "process", loc);
    WithKeeps(n, d3, "infrafunction_source", p.infraSource, "infrafunction", loc);
  }

  /** A Function pairing that is read back has the parts it was made of. */
  lemma PartsReadBack(n: Node, loads: Loads, m: Node, p: FunctionParts)
    requires Ready(m) && Stable(p.processSource) && Stable(p.infraSource) && PairFunction(m, p).Ok?
    requires Ready(n) && n.sha == m.sha && n.dumps == m.dumps && JsonCodec(n, loads) && VerifiedMesh(n, loads)
    requires NoCollision(n.sha, n.dumps(Obj(p.process))) && NoCollision(n.sha, n.dumps(Obj(p.infra)))
    requires CatStem(n, PairFunction(m, p).value, "process").Ok?
      && CatStem(n, PairFunction(m, p).value, "infrafunction").Ok?
    ensures CatStem(n, PairFunction(m, p).value, "process").value == p.process
    ensures CatStem(n, PairFunction(m, p).value, "infrafunction").value == p.infra
  {
    var doc := PairFunction(m, p).value;
    PairCommits(m, p, n.mesh);
    PairFunctionReads(m, p, n.mesh.locators);
    CatIsStored(n, doc, "process");
    CatIsStored(n, doc, "infrafunction");
    assert JsonId(n, Obj(p.process)) == JsonId(m, Obj(p.process)) && JsonId(n, Obj(p.infra)) == JsonId(m, Obj(p.infra));
    ReadIsWritten(n, loads, doc, "process", Obj(p.process));
    ReadIsWritten(n, loads, doc, "infrafunction", Obj(p.infra));
  }

  lemma ReadsAreSame(n: Node, f: FunctionArgs, p: FunctionParts, process: Dict, infra: Dict)
    requires IsSha(n.sha)
    requires ProcessReads(n, p.process, f, p.processSource, process, n.mesh.locators) && process == p.process
    requires InfraReads(n, p.infra, f, p.infraSource, infra, n.mesh.locators) && infra == p.infra
    ensures ProcessSame(n, f, p.processSource, process) && InfraSame(n, f, p.infraSource, infra)
  {
  }

  /** A rebuild with the id the Function had replaces nothing by anything else. */
  lemma SameIdNothingNew(n: Node, loads: Loads, order: Dict, fn: Dict, f: FunctionArgs)
    requires Ready(n) && JsonCodec(n, loads) && VerifiedMesh(n, loads)
    requires RebuildFunction(n, fn, f).Ok? && StableFunction(n, fn, f)
      && Unforged(n.sha, RebuildFunction(n, fn, f).value.puts)
    requires StoredDoc(n.mesh, order, "function") == Some(fn) && Checked(n.mesh, order, "function")
    requires RefId(order, "function", n.mesh.locators) == Ok(Some(RebuildFunction(n, fn, f).value.value))
    ensures NothingNew(n, fn, f)
  {
    var p := Parts(n, fn, f).value.value;
    var doc := PairFunction(n, p).value;
    RebuildLaw(n, fn, f, n.mesh.locators);
    PartsRead(n, fn, f, n.mesh.locators);
    RebuildPuts(n, fn, f);
    JsonIdStable(n, Obj(doc));
    ReadIsWritten(n, loads, order, "function", Obj(doc));
    assert fn == doc;
    PartsReadBack(n, loads, n, p);
    PartsAre(n, fn, f);
    ReadsAreSame(n, f, p, CatStem(n, fn, "process").value, CatStem(n, fn, "infrafunction").value);
    SourcesAre(n, fn, f);
  }

  lemma SourcesAre(n: Node, fn: Dict, f: FunctionArgs)
    requires IsSha(n.sha) && Parts(n, fn, f).Ok?
    ensures Require(n, fn, "process_source") == Ok(Parts(n, fn, f).value.value.processSource)
    ensures Require(n, fn, "infrafunction_source") == Ok(Parts(n, fn, f).value.value.infraSource)
  {
    PartsAre(n, fn, f);
  }

  /** What a rebuild puts. */
  lemma RebuildPuts(n: Node, fn: Dict, f: FunctionArgs)
    requires IsSha(n.sha) && RebuildFunction(n, fn, f).Ok?
    ensures Parts(n, fn, f).Ok? && PairFunction(n, Parts(n, fn, f).value.value).Ok?
    ensures var (p, puts) := (Parts(n, fn, f).value.value, RebuildFunction(n, fn, f).value.puts);
      && n.dumps(Obj(p.process)) in puts && n.dumps(Obj(p.infra)) in puts
      && n.dumps(Obj(PairFunction(n, p).value)) in puts
  {
    DocPuts(n, fn, f);
    var doc := FunctionDoc(n, fn, f).value;
    var puts := doc.puts + [n.dumps(Obj(doc.value))];
    assert puts[|doc.puts|] == n.dumps(Obj(doc.value));
    forall b | b in doc.puts ensures b in puts {
    }
  }

  lemma DocPuts(n: Node, fn: Dict, f: FunctionArgs)
    requires IsSha(n.sha) && FunctionDoc(n, fn, f).Ok?
    ensures Parts(n, fn, f).Ok? && PairFunction(n, Parts(n, fn, f).value.value) == Ok(FunctionDoc(n, fn, f).value.value)
    ensures var (p, puts) := (Parts(n, fn, f).value.value, FunctionDoc(n, fn, f).value.puts);
      n.dumps(Obj(p.process)) in puts && n.dumps(Obj(p.infra)) in puts
  {
    var parts := Parts(n, fn, f).value;
    var both := [n.dumps(Obj(parts.value.process)), n.dumps(Obj(parts.value.infra))];
    assert (parts.puts + both)[|parts.puts|] == both[0] && (parts.puts + both)[|parts.puts| + 1] == both[1];
  }

  // --- nothing new means the same id -----------------------------------------------------------------

  /** How the two parts of a Function were filled: the node, the callables, what the slots without one were carried
      from, and the result. */
  datatype Recipe = Recipe(n: Node, f: FunctionArgs, process: Dict, infra: Dict, parts: FunctionParts)

  ghost predicate Cooked(r: Recipe) {
    && Ready(r.n) && Stable(r.parts.processSource) && Stable(r.parts.infraSource)
    && CarriedSlots(r.n, ProcessSlots(r.f), r.process) && CarriedSlots(r.n, InfraSlots(r.f), r.infra)
    && var filled := Fill(r.n, r.f, r.parts.processSource, r.parts.infraSource, r.process, r.infra);
       filled.Ok? && filled.value.value == r.parts
  }

  /** The base URLs are the same up to slashes at the end, which is all that a written reference shows of them. */
  ghost predicate SameBase(n: Node, m: Node) {
    RStripSlash(n.base) == RStripSlash(m.base)
  }

  /** Two nodes with the same hash and the same encoding. */
  ghost predicate SameHashing(n: Node, m: Node) {
    n.sha == m.sha && n.dumps == m.dumps
  }

  /** Two nodes that write the same documents under the same ids. */
  ghost predicate Alike(n: Node, m: Node) {
    SameHashing(n, m) && SameBase(n, m)
  }

  /** The Function document such a recipe makes. */
  ghost predicate Makes(r: Recipe, fn: Dict) {
    Cooked(r) && PairFunction(r.n, r.parts) == Ok(fn)
  }

  /** A rebuild follows a recipe. */
  lemma RebuildRecipe(m: Node, from: Dict, f: FunctionArgs) returns (r: Recipe)
    requires Ready(m) && StableFunction(m, from, f) && Parts(m, from, f).Ok?
    ensures Cooked(r) && r.n == m && r.parts == Parts(m, from, f).value.value
  {
    PartsRead(m, from, f, m.mesh.locators);
    PartsAre(m, from, f);
    SourcesAre(m, from, f);
    r := Recipe(m, f, CatStem(m, from, "process").value, CatStem(m, from, "infrafunction").value,
                Parts(m, from, f).value.value);
  }

  /** The same ids in the same slots make the same document. */
  lemma {:induction false} FillSlotsSame(n: Node, slots: Slots, source: string, prev: Dict,
                                         m: Node, slots0: Slots, source0: string, prev0: Dict, doc: Dict)
    requires IsSha(n.sha) && IsSha(m.sha) && SameBase(n, m) && |slots| == |slots0|
    requires FillSlots(m, slots0, source0, prev0, doc).Ok?
    requires forall i :: 0 <= i < |slots| ==> SameSlotId(n, slots[i], source, prev, m, slots0[i], source0, prev0)
    ensures FillSlots(n, slots, source, prev, doc).Ok?
    ensures FillSlots(n, slots, source, prev, doc).value.value == FillSlots(m, slots0, source0, prev0, doc).value.value
    decreases |slots|
  {
    if slots != [] {
      assert SameSlotId(n, slots[0], source, prev, m, slots0[0], source0, prev0);
      var id := SlotId(m, slots0[0].0, slots0[0].1, source0, prev0).value.value;
      WithSame(n, m, doc, slots[0].0, id);
      var doc1 := With(m, doc, slots0[0].0, id).value;
      forall i | 0 <= i < |slots[1..]|
        ensures SameSlotId(n, slots[1..][i], source, prev, m, slots0[1..][i], source0, prev0)
      {
        assert slots[1..][i] == slots[i + 1] && slots0[1..][i] == slots0[i + 1];
      }
      FillSlotsSame(n, slots[1..], source, prev, m, slots0[1..], source0, prev0, doc1);
    }
  }

  ghost predicate SameSlotId(n: Node, slot: (string, Option<string>), source: string, prev: Dict,
                             m: Node, slot0: (string, Option<string>), source0: string, prev0: Dict)
    requires IsSha(n.sha) && IsSha(m.sha)
  {
    && slot.0 == slot0.0
    && var id, id0 := SlotId(n, slot.0, slot.1, source, prev), SlotId(m, slot0.0, slot0.1, source0, prev0);
       id.Ok? && id0.Ok? && id.value.value == id0.value.value
  }

  /** A slot of a document that was filled with an id, filled again with nothing new. */
  lemma SameAgain(n: Node, slot: (string, Option<string>), source: string,
                  m: Node, slot0: (string, Option<string>), source0: string, prev0: Dict, d: Dict)
    requires IsSha(n.sha) && IsSha(m.sha) && slot.0 == slot0.0
    requires SlotHolds(m, d, slot0.0, slot0.1, source0, prev0, n.mesh.locators)
    requires SlotSame(n, slot.0, slot.1, source, d)
    ensures SameSlotId(n, slot, source, d, m, slot0, source0, prev0)
  {
  }

  lemma ProcessAgain(n: Node, f: FunctionArgs, source: string, m: Node, f0: FunctionArgs, source0: string, prev0: Dict)
    requires Ready(n) && Ready(m) && SameBase(n, m) && CarriedSlots(m, ProcessSlots(f0), prev0)
    requires FillSlots(m, ProcessSlots(f0), source0, prev0, []).Ok?
    requires ProcessSame(n, f, source, FillSlots(m, ProcessSlots(f0), source0, prev0, []).value.value)
    ensures var d := FillSlots(m, ProcessSlots(f0), source0, prev0, []).value.value;
      FillSlots(n, ProcessSlots(f), source, d, []).Ok? && FillSlots(n, ProcessSlots(f), source, d, []).value.value == d
  {
    var slots, slots0 := ProcessSlots(f), ProcessSlots(f0);
    var d := FillSlots(m, slots0, source0, prev0, []).value.value;
    ProcessSlotsGood(f0);
    FillSlotsHolds(m, slots0, source0, prev0, [], n.mesh.locators);
    forall i | 0 <= i < |slots| ensures SameSlotId(n, slots[i], source, d, m, slots0[i], source0, prev0) {
      assert SlotHolds(m, d, slots0[i].0, slots0[i].1, source0, prev0, n.mesh.locators);
      assert i == 0 || i == 1 || i == 2 || i == 3;
      assert SlotSame(n, slots[i].0, slots[i].1, source, d);
      SameAgain(n, slots[i], source, m, slots0[i], source0, prev0, d);
    }
    FillSlotsSame(n, slots, source, d, m, slots0, source0, prev0, []);
  }

  lemma InfraAgain(n: Node, f: FunctionArgs, source: string, m: Node, f0: FunctionArgs, source0: string, prev0: Dict)
    requires Ready(n) && Ready(m) && SameBase(n, m) && CarriedSlots(m, InfraSlots(f0), prev0)
    requires FillSlots(m, InfraSlots(f0), source0, prev0, []).Ok?
    requires InfraSame(n, f, source, FillSlots(m, InfraSlots(f0), source0, prev0, []).value.value)
    ensures var d := FillSlots(m, InfraSlots(f0), source0, prev0, []).value.value;
      FillSlots(n, InfraSlots(f), source, d, []).Ok? && FillSlots(n, InfraSlots(f), source, d, []).value.value == d
  {
    var slots, slots0 := InfraSlots(f), InfraSlots(f0);
    var d := FillSlots(m, slots0, source0, prev0, []).value.value;
    SubprocIsPlain("infrafunction_");
    FillSlotsHolds(m, slots0, source0, prev0, [], n.mesh.locators);
    assert SlotHolds(m, d, slots0[0].0, slots0[0].1, source0, prev0, n.mesh.locators);
    SameAgain(n, slots[0], source, m, slots0[0], source0, prev0, d);
    FillSlotsSame(n, slots, source, d, m, slots0, source0, prev0, []);
  }

  /** The parts of a recipe, slot by slot. */
  lemma CookedParts(r: Recipe)
    requires Cooked(r)
    ensures var process := FillSlots(r.n, ProcessSlots(r.f), r.parts.processSource, r.process, []);
      var infra := FillSlots(r.n, InfraSlots(r.f), r.parts.infraSource, r.infra, []);
      process.Ok? && infra.Ok? && process.value.value == r.parts.process && infra.value.value == r.parts.infra
  {
    FillParts(r.n, r.f, r.parts.processSource, r.parts.infraSource, r.process, r.infra);
  }

  lemma FillParts(n: Node, f: FunctionArgs, processSource: string, infraSource: string, process: Dict, infra: Dict)
    requires IsSha(n.sha)
    ensures var r := Fill(n, f, processSource, infraSource, process, infra);
      var a := FillSlots(n, ProcessSlots(f), processSource, process, []);
      var b := FillSlots(n, InfraSlots(f), infraSource, infra, []);
      && (r.Ok? <==> a.Ok? && b.Ok?)
      && (r.Ok? ==> r.value.value == FunctionParts(a.value.value, b.value.value, processSource, infraSource))
  {
  }

  /** The reads a rebuild starts with. */
  lemma PartsOf(n: Node, fn: Dict, f: FunctionArgs, p: FunctionParts)
    requires IsSha(n.sha)
    requires Require(n, fn, "process_source") == Ok(p.processSource)
      && Require(n, fn, "infrafunction_source") == Ok(p.infraSource)
    requires CatStem(n, fn, "process") == Ok(p.process) && CatStem(n, fn, "infrafunction") == Ok(p.infra)
    ensures Parts(n, fn, f) == Fill(n, f, p.processSource, p.infraSource, p.process, p.infra)
  {
  }

  lemma RebuildOf(n: Node, fn: Dict, f: FunctionArgs, p: FunctionParts, doc: Dict)
    requires IsSha(n.sha) && Parts(n, fn, f).Ok? && Parts(n, fn, f).value.value == p && PairFunction(n, p) == Ok(doc)
    ensures RebuildFunction(n, fn, f).Ok? && RebuildFunction(n, fn, f).value.value == JsonId(n, Obj(doc))
  {
  }

  lemma PairSame(n: Node, m: Node, p: FunctionParts)
    requires IsSha(n.sha) && Alike(n, m)
    ensures PairFunction(n, p) == PairFunction(m, p)
  {
    var process, infra := JsonId(n, Obj(p.process)), JsonId(n, Obj(p.infra));
    assert process == JsonId(m, Obj(p.process)) && infra == JsonId(m, Obj(p.infra));
    var d1 := With(n, [], "process", process);
    WithSame(n, m, [], "process", process);
    if d1.Ok? {
      var d2 := With(n, d1.value, "infrafunction", infra);
      WithSame(n, m, d1.value, "infrafunction", infra);
      if d2.Ok? {
        WithSame(n, m, d2.value, "process_source", p.processSource);
        var d3 := With(n, d2.value, "process_source", p.processSource);
        if d3.Ok? {
          WithSame(n, m, d3.value, "infrafunction_source", p.infraSource);
        }
      }
    }
  }

  lemma WithSame(n: Node, m: Node, d: Dict, stem: string, id: string)
    requires SameBase(n, m)
    ensures With(n, d, stem, id) == With(m, d, stem, id)
  {
    if RefTarget(id).Ok? {
      TextSame(RefTarget(id).value, n.base, m.base);
    }
  }

  lemma TextSame(eid: string, base: string, other: string)
    requires RStripSlash(base) == RStripSlash(other)
    ensures RefText(eid, base, None) == RefText(eid, other, None)
  {
    forall hex ensures CasLdpUri(hex, base) == CasLdpUri(hex, other) {
    }
  }

  /** Rebuilding such a Function with nothing new gives its id again. */
  lemma NothingNewSameId(n: Node, fn: Dict, f: FunctionArgs, r: Recipe)
    requires Ready(n) && Makes(r, fn) && Alike(n, r.n) && NothingNew(n, fn, f)
    requires CatStem(n, fn, "process") == Ok(r.parts.process) && CatStem(n, fn, "infrafunction") == Ok(r.parts.infra)
    ensures RebuildFunction(n, fn, f).Ok? && RebuildFunction(n, fn, f).value.value == JsonId(n, Obj(fn))
  {
    var p := r.parts;
    PairFunctionReads(r.n, p, n.mesh.locators);
    SourceRead(n, fn, "process_source", p.processSource);
    SourceRead(n, fn, "infrafunction_source", p.infraSource);
    CookedParts(r);
    ProcessAgain(n, f, p.processSource, r.n, r.f, p.processSource, r.process);
    InfraAgain(n, f, p.infraSource, r.n, r.f, p.infraSource, r.infra);
    PartsOf(n, fn, f, p);
    FillParts(n, f, p.processSource, p.infraSource, p.process, p.infra);
    PairSame(n, r.n, p);
    RebuildOf(n, fn, f, p, fn);
  }

  lemma SourceRead(n: Node, fn: Dict, stem: string, id: string)
    requires RefId(fn, stem, n.mesh.locators) == Ok(Some(id)) && Stable(id)
    ensures Require(n, fn, stem) == Ok(id)
  {
  }

  // --- both directions, for a step -------------------------------------------------------------------

  lemma FunctionChosen(n: Node, order: Dict, link: Link, id: string)
    requires IsSha(n.sha) && ChosenFunction(n, order, link, id) && !CarriesFunction(link)
    ensures NestedDoc(order, "function").Ok?
    ensures var rebuilt := RebuildFunction(n, NestedDoc(order, "function").value, link.f);
      rebuilt.Ok? && rebuilt.value.value == id && FunctionOf(n, order, link).Ok?
        && FunctionOf(n, order, link).value.puts == rebuilt.value.puts
  {
  }

  /** The bag aside, a rebuild does not depend on how the prior Function was reached. */
  lemma RebuildWithoutBag(n: Node, prev: Dict, f: FunctionArgs)
    requires IsSha(n.sha)
    ensures RebuildFunction(n, Del(prev, FLAT), f) == RebuildFunction(n, prev, f)
  {
    SameReads(n, prev, "process_source");
    SameReads(n, prev, "infrafunction_source");
    SameReads(n, prev, "process");
    SameReads(n, prev, "infrafunction");
    PartsCongruent(n, Del(prev, FLAT), prev, f);
    RebuildCongruent(n, Del(prev, FLAT), prev, f);
  }

  lemma PartsCongruent(n: Node, a: Dict, b: Dict, f: FunctionArgs)
    requires IsSha(n.sha)
    requires Require(n, a, "process_source") == Require(n, b, "process_source")
    requires Require(n, a, "infrafunction_source") == Require(n, b, "infrafunction_source")
    requires CatStem(n, a, "process") == CatStem(n, b, "process")
    requires CatStem(n, a, "infrafunction") == CatStem(n, b, "infrafunction")
    ensures Parts(n, a, f) == Parts(n, b, f)
  {
  }

  lemma RebuildCongruent(n: Node, a: Dict, b: Dict, f: FunctionArgs)
    requires IsSha(n.sha) && Parts(n, a, f) == Parts(n, b, f)
    ensures RebuildFunction(n, a, f) == RebuildFunction(n, b, f)
  {
  }

  /** The stored Function of the prior Order. */
  ghost predicate PriorFunction(n: Node, bom: Dict, fn: Dict) {
    StoredRun(n.mesh, bom).Some? && StoredDoc(n.mesh, StoredRun(n.mesh, bom).value.1, "function") == Some(fn)
  }

  /** What a step that rebuilds the Function works on. */
  lemma RebuildStep(n: Node, bom: Dict, link: Link, loc: Locators) returns (fn: Dict)
    requires Ready(n) && StoredNoFlat(n.mesh) && StableRun(n.mesh, bom) && Linked(n, bom, link).Ok?
      && !CarriesFunction(link)
    ensures PriorFunction(n, bom, fn)
    ensures RebuildFunction(n, fn, link.f).Ok?
    ensures RefId(Linked(n, bom, link).value.value.order, "function", loc)
         == Ok(Some(RebuildFunction(n, fn, link.f).value.value))
    ensures forall b :: b in RebuildFunction(n, fn, link.f).value.puts ==> b in Linked(n, bom, link).value.puts
  {
    LinkedStep(n, bom, link);
    var (invoice, order) := PriorRun(n, bom).value;
    var c := StepChoice(n, invoice, order, link);
    PriorIsStored(n, bom, 4);
    ChoiceStable(n, invoice, order, link, c);
    MintsReads(n, order, c, Linked(n, bom, link).value.value, loc);
    FunctionChosen(n, order, link, c.functionId);
    PriorNested(n, bom, 4, "function");
    StepAssembles(n, invoice, order, link);
    AssemblePuts(n, order, FunctionOf(n, order, link), StructureOf(n, order, link), Require(n, invoice, "data"));
    fn := Del(NestedDoc(order, "function").value, FLAT);
    RebuildWithoutBag(n, NestedDoc(order, "function").value, link.f);
  }

  /** The parts of a Function that was rebuilt. */
  ghost predicate RebuiltFrom(n: Node, fn: Dict, f: FunctionArgs, p: FunctionParts, doc: Dict, loc: Locators)
    requires IsSha(n.sha)
  {
    && RefId(doc, "process", loc) == Ok(Some(JsonId(n, Obj(p.process))))
    && RefId(doc, "infrafunction", loc) == Ok(Some(JsonId(n, Obj(p.infra))))
    && RefId(doc, "process_source", loc) == RefId(fn, "process_source", n.mesh.locators) == Ok(Some(p.processSource))
    && RefId(doc, "infrafunction_source", loc) == RefId(fn, "infrafunction_source", n.mesh.locators)
       == Ok(Some(p.infraSource))
    && CatStem(n, fn, "process").Ok? && CatStem(n, fn, "infrafunction").Ok?
    && ProcessReads(n, p.process, f, p.processSource, CatStem(n, fn, "process").value, loc)
    && InfraReads(n, p.infra, f, p.infraSource, CatStem(n, fn, "infrafunction").value, loc)
  }

  /** A step that rebuilds the Function puts a Function with its Process and InfraFunction, and the new Order refers to
      it: every replacement bound to its own source in its own slot, everything else as the stored prior Function. */
  lemma NewFunctionLaw(n: Node, bom: Dict, link: Link, loc: Locators)
    returns (fn: Dict, p: FunctionParts, doc: Dict)
    requires Ready(n) && StoredNoFlat(n.mesh) && StableRun(n.mesh, bom) && Linked(n, bom, link).Ok?
      && !CarriesFunction(link)
    requires forall fn :: PriorFunction(n, bom, fn) ==> StableFunction(n, fn, link.f)
    ensures PriorFunction(n, bom, fn) && RebuiltFrom(n, fn, link.f, p, doc, loc)
    ensures RefId(Linked(n, bom, link).value.value.order, "function", loc) == Ok(Some(JsonId(n, Obj(doc))))
    ensures var puts := Linked(n, bom, link).value.puts;
      n.dumps(Obj(p.process)) in puts && n.dumps(Obj(p.infra)) in puts && n.dumps(Obj(doc)) in puts
  {
    fn := RebuildStep(n, bom, link, loc);
    p, doc := RebuiltParts(n, fn, link.f, loc);
  }

  lemma RebuiltParts(n: Node, fn: Dict, f: FunctionArgs, loc: Locators) returns (p: FunctionParts, doc: Dict)
    requires Ready(n) && StableFunction(n, fn, f) && RebuildFunction(n, fn, f).Ok?
    ensures RebuiltFrom(n, fn, f, p, doc, loc) && RebuildFunction(n, fn, f).value.value == JsonId(n, Obj(doc))
    ensures var puts := RebuildFunction(n, fn, f).value.puts;
      n.dumps(Obj(p.process)) in puts && n.dumps(Obj(p.infra)) in puts && n.dumps(Obj(doc)) in puts
  {
    RebuildLaw(n, fn, f, loc);
    PartsRead(n, fn, f, loc);
    p := Parts(n, fn, f).value.value;
    doc := PairFunction(n, p).value;
    RebuildPuts(n, fn, f);
  }

  /** The Function analogue of `StructureMoves`: if some replacement binds to another id than its slot has, the Function
      id changes. */
  lemma FunctionMoves(n: Node, loads: Loads, bom: Dict, link: Link, fn: Dict, loc: Locators)
    requires Ready(n) && StoredNoFlat(n.mesh) && StableRun(n.mesh, bom) && Linked(n, bom, link).Ok?
      && !CarriesFunction(link)
    requires JsonCodec(n, loads) && VerifiedMesh(n, loads) && Unforged(n.sha, Linked(n, bom, link).value.puts)
    requires PriorFunction(n, bom, fn) && StableFunction(n, fn, link.f)
    requires Checked(n.mesh, StoredRun(n.mesh, bom).value.1, "function")
    requires !NothingNew(n, fn, link.f)
    ensures RefId(Linked(n, bom, link).value.value.order, "function", loc)
         != RefId(StoredRun(n.mesh, bom).value.1, "function", n.mesh.locators)
  {
    var order := StoredRun(n.mesh, bom).value.1;
    var same := RebuildStep(n, bom, link, loc);
    assert same == fn;
    UnforgedSubset(n.sha, Linked(n, bom, link).value.puts, RebuildFunction(n, fn, link.f).value.puts);
    if RefId(order, "function", n.mesh.locators) == Ok(Some(RebuildFunction(n, fn, link.f).value.value)) {
      SameIdNothingNew(n, loads, order, fn, link.f);
    }
  }

  lemma UnforgedSubset(sha: Sha, puts: seq<Bytes>, some: seq<Bytes>)
    requires Unforged(sha, puts) && forall b :: b in some ==> b in puts
    ensures Unforged(sha, some)
  {
    forall i | 0 <= i < |some| ensures NoCollision(sha, some[i]) {
      assert some[i] in puts;
    }
  }

  /** A Function pairing shows the base URL it was written over. */
  lemma PairShowsBase(n: Node, m: Node, p: FunctionParts, q: FunctionParts)
    requires Ready(n) && Stable(p.processSource) && Stable(p.infraSource)
    requires Ready(m) && Stable(q.processSource) && Stable(q.infraSource)
    requires PairFunction(n, p).Ok? && PairFunction(n, p) == PairFunction(m, q)
    ensures SameBase(n, m)
  {
    PairUri(n, p);
    PairUri(m, q);
    PrefixesSame(RStripSlash(n.base), RStripSlash(m.base), RefUri(PairFunction(n, p).value, "process").value);
  }

  lemma PrefixesSame(a: string, b: string, s: string)
    requires a <= s && b <= s && |a| == |b|
    ensures a == b
  {
  }

  /** The locator of the Process in a Function pairing. */
  lemma PairUri(n: Node, p: FunctionParts)
    requires Ready(n) && Stable(p.processSource) && Stable(p.infraSource) && PairFunction(n, p).Ok?
    ensures var uri := CasLdpUri(n.sha(n.dumps(Obj(p.process))), n.base);
      && uri.Ok? && RefUri(PairFunction(n, p).value, "process") == Some(uri.value)
      && RStripSlash(n.base) <= uri.value && |uri.value| == |RStripSlash(n.base)| + 73
  {
    FunctionStems();
    var process, infra := JsonId(n, Obj(p.process)), JsonId(n, Obj(p.infra));
    WrittenUri(n, [], "process", Obj(p.process));
    var d1 := With(n, [], "process", process).value;
    WithKeeps(n, d1, "infrafunction", infra, "process", n.mesh.locators);
    var d2 := With(n, d1, "infrafunction", infra).value;
    WithKeeps(n, d2, "process_source", p.processSource, "process", n.mesh.locators);
    var d3 := With(n, d2, "process_source", p.processSource).value;
    WithKeeps(n, d3, "infrafunction_source", p.infraSource, "process", n.mesh.locators);
  }

  /** What is written for a document that was put. */
  lemma WrittenUri(n: Node, d: Dict, stem: string, j: Json)
    requires Ready(n)
    ensures With(n, d, stem, JsonId(n, j)).Ok?
    ensures var uri := CasLdpUri(n.sha(n.dumps(j)), n.base);
      && uri.Ok? && RefUri(With(n, d, stem, JsonId(n, j)).value, stem) == Some(uri.value)
      && RStripSlash(n.base) <= uri.value && |uri.value| == |RStripSlash(n.base)| + 73
  {
    var hex := n.sha(n.dumps(j));
    NiTextNames(n.sha, n.dumps(j));
    FromNiNamed(JsonId(n, j));
    SetRefOfDigest(d, stem, JsonId(n, j), n.base);
    CasUriPath(hex, n.base);
    HexIsTrimmed(hex);
    LowerOfHex(hex);
    WrittenField(d, stem, Str(CasLdpUri(hex, n.base).value));
  }

  /** The same id means the same base URL. */
  lemma SameIdSameBase(n: Node, loads: Loads, order: Dict, fn: Dict, f: FunctionArgs, r: Recipe)
    requires Ready(n) && JsonCodec(n, loads) && VerifiedMesh(n, loads)
    requires RebuildFunction(n, fn, f).Ok? && StableFunction(n, fn, f)
      && Unforged(n.sha, RebuildFunction(n, fn, f).value.puts)
    requires StoredDoc(n.mesh, order, "function") == Some(fn) && Checked(n.mesh, order, "function") && Makes(r, fn)
    requires RefId(order, "function", n.mesh.locators) == Ok(Some(RebuildFunction(n, fn, f).value.value))
    ensures SameBase(n, r.n)
  {
    var p := Parts(n, fn, f).value.value;
    var doc := PairFunction(n, p).value;
    RebuildLaw(n, fn, f, n.mesh.locators);
    PartsRead(n, fn, f, n.mesh.locators);
    RebuildPuts(n, fn, f);
    JsonIdStable(n, Obj(doc));
    ReadIsWritten(n, loads, order, "function", Obj(doc));
    PairShowsBase(n, r.n, p, r.parts);
  }

  /** Over another base URL the id always changes. */
  lemma BaseMoves(n: Node, loads: Loads, bom: Dict, link: Link, fn: Dict, r: Recipe, loc: Locators)
    requires Ready(n) && StoredNoFlat(n.mesh) && StableRun(n.mesh, bom) && Linked(n, bom, link).Ok?
      && !CarriesFunction(link)
    requires JsonCodec(n, loads) && VerifiedMesh(n, loads) && Unforged(n.sha, Linked(n, bom, link).value.puts)
    requires PriorFunction(n, bom, fn) && StableFunction(n, fn, link.f) && Makes(r, fn) && !SameBase(n, r.n)
    requires Checked(n.mesh, StoredRun(n.mesh, bom).value.1, "function")
    ensures RefId(Linked(n, bom, link).value.value.order, "function", loc)
         != RefId(StoredRun(n.mesh, bom).value.1, "function", n.mesh.locators)
  {
    var order := StoredRun(n.mesh, bom).value.1;
    var same := RebuildStep(n, bom, link, loc);
    assert same == fn;
    UnforgedSubset(n.sha, Linked(n, bom, link).value.puts, RebuildFunction(n, fn, link.f).value.puts);
    if RefId(order, "function", n.mesh.locators) == Ok(Some(RebuildFunction(n, fn, link.f).value.value)) {
      SameIdSameBase(n, loads, order, fn, link.f, r);
    }
  }

  /** The converse: if the prior Function was made over the same base URL and every replacement binds to the id its
      slot already has, the id stays. */
  lemma FunctionStays(n: Node, loads: Loads, bom: Dict, link: Link, fn: Dict, r: Recipe, loc: Locators)
    requires Ready(n) && StoredNoFlat(n.mesh) && StableRun(n.mesh, bom) && Linked(n, bom, link).Ok?
      && !CarriesFunction(link)
    requires JsonCodec(n, loads) && VerifiedMesh(n, loads)
    requires PriorFunction(n, bom, fn) && Makes(r, fn) && Alike(n, r.n)
    requires NoCollision(n.sha, n.dumps(Obj(r.parts.process))) && NoCollision(n.sha, n.dumps(Obj(r.parts.infra)))
    requires RefId(StoredRun(n.mesh, bom).value.1, "function", n.mesh.locators) == Ok(Some(JsonId(n, Obj(fn))))
    requires NothingNew(n, fn, link.f)
    ensures RefId(Linked(n, bom, link).value.value.order, "function", loc)
         == RefId(StoredRun(n.mesh, bom).value.1, "function", n.mesh.locators)
  {
    var same := RebuildStep(n, bom, link, loc);
    assert same == fn;
    PartsReadBack(n, loads, r.n, r.parts);
    NothingNewSameId(n, fn, link.f, r);
  }

  // --- a made Function can be rebuilt again ----------------------------------------------------------

  lemma FilledIsStable(n: Node, slots: Slots, m: Node, slots0: Slots, source0: string, prev0: Dict)
    requires Ready(m) && GoodSlots(slots0) && CarriedSlots(m, slots0, prev0)
      && FillSlots(m, slots0, source0, prev0, []).Ok?
    requires |slots| == |slots0| && forall i :: 0 <= i < |slots| ==> slots[i].0 == slots0[i].0
    ensures CarriedSlots(n, slots, FillSlots(m, slots0, source0, prev0, []).value.value)
  {
    FillSlotsHolds(m, slots0, source0, prev0, [], n.mesh.locators);
    var d := FillSlots(m, slots0, source0, prev0, []).value.value;
    forall i | 0 <= i < |slots| ensures StableRef(d, slots[i].0, n.mesh.locators) {
      assert SlotHolds(m, d, slots0[i].0, slots0[i].1, source0, prev0, n.mesh.locators);
    }
  }

  /** All its references can be carried. */
  lemma MadeIsStable(n: Node, fn: Dict, f: FunctionArgs, r: Recipe)
    requires Makes(r, fn)
    requires CatStem(n, fn, "process") == Ok(r.parts.process) && CatStem(n, fn, "infrafunction") == Ok(r.parts.infra)
    ensures StableFunction(n, fn, f)
  {
    PairFunctionReads(r.n, r.parts, n.mesh.locators);
    CookedParts(r);
    ProcessFilled(n, f, r.n, r.f, r.parts.processSource, r.process);
    InfraFilled(n, f, r.n, r.f, r.parts.infraSource, r.infra);
    FunctionOfStable(n, fn, f, r.parts);
  }

  lemma ProcessFilled(n: Node, f: FunctionArgs, m: Node, f0: FunctionArgs, source: string, prev: Dict)
    requires Ready(m) && CarriedSlots(m, ProcessSlots(f0), prev) && FillSlots(m, ProcessSlots(f0), source, prev, []).Ok?
    ensures CarriedSlots(n, ProcessSlots(f), FillSlots(m, ProcessSlots(f0), source, prev, []).value.value)
  {
    ProcessSlotsGood(f0);
    FilledIsStable(n, ProcessSlots(f), m, ProcessSlots(f0), source, prev);
  }

  lemma InfraFilled(n: Node, f: FunctionArgs, m: Node, f0: FunctionArgs, source: string, prev: Dict)
    requires Ready(m) && CarriedSlots(m, InfraSlots(f0), prev) && FillSlots(m, InfraSlots(f0), source, prev, []).Ok?
    ensures CarriedSlots(n, InfraSlots(f), FillSlots(m, InfraSlots(f0), source, prev, []).value.value)
  {
    SubprocIsPlain("infrafunction_");
    FilledIsStable(n, InfraSlots(f), m, InfraSlots(f0), source, prev);
  }

  lemma FunctionOfStable(n: Node, fn: Dict, f: FunctionArgs, p: FunctionParts)
    requires RefId(fn, "process_source", n.mesh.locators) == Ok(Some(p.processSource)) && Stable(p.processSource)
    requires RefId(fn, "infrafunction_source", n.mesh.locators) == Ok(Some(p.infraSource)) && Stable(p.infraSource)
    requires CatStem(n, fn, "process") == Ok(p.process) && CatStem(n, fn, "infrafunction") == Ok(p.infra)
    requires CarriedSlots(n, ProcessSlots(f), p.process) && CarriedSlots(n, InfraSlots(f), p.infra)
    ensures StableFunction(n, fn, f)
  {
  }

  // --- a rebuild that changes nothing ----------------------------------------------------------------

  const NO_REPLACEMENTS: FunctionArgs := FunctionArgs(None, None, None, None, None)

  /** Without replacements there is nothing new, wherever the references can be read. */
  lemma NoReplacementsNothingNew(n: Node, fn: Dict)
    requires IsSha(n.sha) && Parts(n, fn, NO_REPLACEMENTS).Ok?
    ensures NothingNew(n, fn, NO_REPLACEMENTS)
  {
    PartsAre(n, fn, NO_REPLACEMENTS);
  }

  /** Slots that are all replaced can always be filled. */
  lemma {:induction false} AllReplaced(n: Node, slots: Slots, source: string, prev: Dict, doc: Dict)
    requires Ready(n) && forall i :: 0 <= i < |slots| ==> slots[i].1.Some?
    ensures FillSlots(n, slots, source, prev, doc).Ok?
    decreases |slots|
  {
    if slots != [] {
      var (stem, replacement) := slots[0];
      var id := NiText(n.sha, n.bind(replacement.value, source));
      BytesIdStable(n, n.bind(replacement.value, source));
      WithReads(n, doc, stem, id, n.mesh.locators);
      assert forall i :: 0 <= i < |slots[1..]| ==> slots[1..][i] == slots[i + 1];
      AllReplaced(n, slots[1..], source, prev, With(n, doc, stem, id).value);
    }
  }
}
