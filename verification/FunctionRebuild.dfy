/** What a rebuilt Function pairing refers to (`_rebuild_function` of cats/network/order.py). */
module FunctionRebuild {
  import opened Cas
  import opened ContentRef
  import opened Json
  import opened Lineage
  import opened Manifest
  import opened Order
  import opened Wrappers

  type Slots = seq<(string, Option<string>)>

  ghost predicate GoodSlots(slots: Slots) {
    && (forall i :: 0 <= i < |slots| ==> Plain(slots[i].0))
    && (forall i, j :: 0 <= i < j < |slots| ==> slots[i].0 != slots[j].0)
  }

  /** The prior id of every slot that is not replaced can be carried. */
  ghost predicate CarriedSlots(n: Node, slots: Slots, prev: Dict) {
    forall i :: 0 <= i < |slots| && slots[i].1.None? ==> StableRef(prev, slots[i].0, n.mesh.locators)
  }

  /** What a slot refers to: the callable bound to the source, or what the prior document had. */
  ghost predicate SlotReads(n: Node, d: Dict, stem: string, replacement: Option<string>, source: string, prev: Dict,
                            loc: Locators)
    requires IsSha(n.sha)
  {
    match replacement
    case Some(callable) => RefId(d, stem, loc) == Ok(Some(NiText(n.sha, n.bind(callable, source))))
    case None => RefId(d, stem, loc) == RefId(prev, stem, n.mesh.locators) && Require(n, prev, stem).Ok?
  }

  lemma SlotIdIs(n: Node, stem: string, replacement: Option<string>, source: string, prev: Dict)
    requires IsSha(n.sha) && SlotId(n, stem, replacement, source, prev).Ok?
    requires replacement.None? ==> StableRef(prev, stem, n.mesh.locators)
    ensures Stable(SlotId(n, stem, replacement, source, prev).value.value)
    ensures replacement.None? ==>
      RefId(prev, stem, n.mesh.locators) == Ok(Some(SlotId(n, stem, replacement, source, prev).value.value))
  {
    match replacement
    case Some(callable) =>
      BytesIdStable(n, n.bind(callable, source));
    case None =>
      RequireReads(n, prev, stem, Require(n, prev, stem).value);
  }

  /** The slot has an id, and the document refers to it. */
  ghost predicate SlotHolds(n: Node, d: Dict, stem: string, replacement: Option<string>, source: string, prev: Dict,
                            loc: Locators)
    requires IsSha(n.sha)
  {
    && SlotId(n, stem, replacement, source, prev).Ok?
    && Stable(SlotId(n, stem, replacement, source, prev).value.value)
    && RefId(d, stem, loc) == Ok(Some(SlotId(n, stem, replacement, source, prev).value.value))
  }

  /** Filling slots sets each of them and leaves every other stem alone. */
  lemma {:induction false} FillSlotsHolds(n: Node, slots: Slots, source: string, prev: Dict, doc: Dict, loc: Locators)
    requires Ready(n) && GoodSlots(slots) && CarriedSlots(n, slots, prev) && FillSlots(n, slots, source, prev, doc).Ok?
    ensures var r := FillSlots(n, slots, source, prev, doc).value.value;
      && (forall i :: 0 <= i < |slots| ==> SlotHolds(n, r, slots[i].0, slots[i].1, source, prev, loc))
      && (forall stem :: Plain(stem) && (forall i :: 0 <= i < |slots| ==> slots[i].0 != stem) ==>
          RefId(r, stem, loc) == RefId(doc, stem, loc))
    decreases |slots|
  {
    if slots != [] {
      var (stem, replacement) := slots[0];
      var id := SlotId(n, stem, replacement, source, prev).value.value;
      SlotIdIs(n, stem, replacement, source, prev);
      WithReads(n, doc, stem, id, loc);
      var doc1 := With(n, doc, stem, id).value;
      var r := FillSlots(n, slots, source, prev, doc).value.value;
      FillSlotsHolds(n, slots[1..], source, prev, doc1, loc);
      assert RefId(r, stem, loc) == RefId(doc1, stem, loc);
      FirstHolds(n, slots, source, prev, r, loc);
      OthersKept(n, slots, doc, id, r, loc);
    }
  }

  lemma OthersKept(n: Node, slots: Slots, doc: Dict, id: string, r: Dict, loc: Locators)
    requires slots != [] && Plain(slots[0].0) && With(n, doc, slots[0].0, id).Ok?
    requires forall stem :: Plain(stem) && (forall i :: 0 <= i < |slots[1..]| ==> slots[1..][i].0 != stem) ==>
      RefId(r, stem, loc) == RefId(With(n, doc, slots[0].0, id).value, stem, loc)
    ensures forall stem :: Plain(stem) && (forall i :: 0 <= i < |slots| ==> slots[i].0 != stem) ==>
      RefId(r, stem, loc) == RefId(doc, stem, loc)
  {
    forall other | Plain(other) && (forall i :: 0 <= i < |slots| ==> slots[i].0 != other)
      ensures RefId(r, other, loc) == RefId(doc, other, loc)
    {
      assert slots[0].0 != other;
      WithKeeps(n, doc, slots[0].0, id, other, loc);
    }
  }

  lemma FirstHolds(n: Node, slots: Slots, source: string, prev: Dict, r: Dict, loc: Locators)
    requires IsSha(n.sha) && slots != [] && SlotHolds(n, r, slots[0].0, slots[0].1, source, prev, loc)
    requires forall i :: 0 <= i < |slots[1..]| ==>
      SlotHolds(n, r, slots[1..][i].0, slots[1..][i].1, source, prev, loc)
    ensures forall i :: 0 <= i < |slots| ==> SlotHolds(n, r, slots[i].0, slots[i].1, source, prev, loc)
  {
    forall i | 0 < i < |slots| ensures SlotHolds(n, r, slots[i].0, slots[i].1, source, prev, loc) {
      assert slots[i] == slots[1..][i - 1];
    }
  }

  /** So each slot is the replacement, or reads as the prior document does. */
  lemma FillSlotsReads(n: Node, slots: Slots, source: string, prev: Dict, doc: Dict, loc: Locators)
    requires Ready(n) && GoodSlots(slots) && CarriedSlots(n, slots, prev) && FillSlots(n, slots, source, prev, doc).Ok?
    ensures var r := FillSlots(n, slots, source, prev, doc).value.value;
      && (forall i :: 0 <= i < |slots| ==> SlotReads(n, r, slots[i].0, slots[i].1, source, prev, loc))
      && (forall stem :: Plain(stem) && (forall i :: 0 <= i < |slots| ==> slots[i].0 != stem) ==>
          RefId(r, stem, loc) == RefId(doc, stem, loc))
  {
    var r := FillSlots(n, slots, source, prev, doc).value.value;
    FillSlotsHolds(n, slots, source, prev, doc, loc);
    forall i | 0 <= i < |slots| ensures SlotReads(n, r, slots[i].0, slots[i].1, source, prev, loc) {
      assert SlotHolds(n, r, slots[i].0, slots[i].1, source, prev, loc);
      SlotIdIs(n, slots[i].0, slots[i].1, source, prev);
    }
  }

  lemma ProcessSlotsGood(f: FunctionArgs)
    ensures GoodSlots(ProcessSlots(f))
  {
    FirstStems(f);
    LastStems(f);
    FourSlots(ProcessSlots(f));
  }

  lemma FirstStems(f: FunctionArgs)
    ensures var (a, b) := (ProcessSlots(f)[0].0, ProcessSlots(f)[1].0);
      Plain(a) && |a| == 15 && Plain(b) && |b| == 18
  {
    SlotStem("ingress_", ProcessSlots(f)[0].0, 15);
    SlotStem("integrated_", ProcessSlots(f)[1].0, 18);
  }

  lemma LastStems(f: FunctionArgs)
    ensures var (c, d) := (ProcessSlots(f)[2].0, ProcessSlots(f)[3].0);
      Plain(c) && |c| == 14 && Plain(d) && |d| == 25
  {
    SlotStem("egress_", ProcessSlots(f)[2].0, 14);
    SlotStem("integration_cache_", ProcessSlots(f)[3].0, 25);
  }

  lemma SlotStem(front: string, stem: string, length: nat)
    requires stem == front + "subproc" && |front| + 7 == length
    ensures Plain(stem) && |stem| == length
  {
    SubprocIsPlain(front);
  }

  lemma FourSlots(slots: Slots)
    requires |slots| == 4 && Plain(slots[0].0) && Plain(slots[1].0) && Plain(slots[2].0) && Plain(slots[3].0)
    requires |slots[0].0| == 15 && |slots[1].0| == 18 && |slots[2].0| == 14 && |slots[3].0| == 25
    ensures GoodSlots(slots)
  {
  }

  lemma SubprocIsPlain(front: string)
    ensures Plain(front + "subproc")
  {
    var s := front + "subproc";
    assert s[|s| - 1] == 'c' && "_uri"[3] == 'i' && "_cid"[3] == 'd';
  }

  lemma FunctionStems()
    ensures Plain("process") && Plain("infrafunction") && Plain("process_source") && Plain("infrafunction_source")
  {
    assert "_uri"[3] == 'i' && "_cid"[3] == 'd';
  }

  /** The Function pairing refers to its two parts and keeps the two sources. */
  lemma PairFunctionReads(n: Node, p: FunctionParts, loc: Locators)
    requires Ready(n) && Stable(p.processSource) && Stable(p.infraSource)
    ensures PairFunction(n, p).Ok?
    ensures var doc := PairFunction(n, p).value;
      && RefId(doc, "process", loc) == Ok(Some(JsonId(n, Obj(p.process))))
      && RefId(doc, "infrafunction", loc) == Ok(Some(JsonId(n, Obj(p.infra))))
      && RefId(doc, "process_source", loc) == Ok(Some(p.processSource))
      && RefId(doc, "infrafunction_source", loc) == Ok(Some(p.infraSource))
  {
    FunctionStems();
    var process, infra := JsonId(n, Obj(p.process)), JsonId(n, Obj(p.infra));
    JsonIdStable(n, Obj(p.process));
    JsonIdStable(n, Obj(p.infra));
    WithReads(n, [], "process", process, loc);
    var d1 := With(n, [], "process", process).value;
    WithReads(n, d1, "infrafunction", infra, loc);
    WithKeeps(n, d1, "infrafunction", infra, "process", loc);
    var d2 := With(n, d1, "infrafunction", infra).value;
    WithReads(n, d2, "process_source", p.processSource, loc);
    WithKeeps(n, d2, "process_source", p.processSource, "process", loc);
    WithKeeps(n, d2, "process_source", p.processSource, "infrafunction", loc);
    var d3 := With(n, d2, "process_source", p.processSource).value;
    WithReads(n, d3, "infrafunction_source", p.infraSource, loc);
    WithKeeps(n, d3, "infrafunction_source", p.infraSource, "process", loc);
    WithKeeps(n, d3, "infrafunction_source", p.infraSource, "infrafunction", loc);
    WithKeeps(n, d3, "infrafunction_source", p.infraSource, "process_source", loc);
  }

  /** The references of the prior Function that a rebuild may carry. */
  ghost predicate StableFunction(n: Node, prev: Dict, f: FunctionArgs) {
    && StableRef(prev, "process_source", n.mesh.locators) && StableRef(prev, "infrafunction_source", n.mesh.locators)
    && CatStem(n, prev, "process").Ok? && CarriedSlots(n, ProcessSlots(f), CatStem(n, prev, "process").value)
    && CatStem(n, prev, "infrafunction").Ok? && CarriedSlots(n, InfraSlots(f), CatStem(n, prev, "infrafunction").value)
  }

  /** Each slot of the new Process is the replacement bound to the source, or what the prior document had. */
  ghost predicate ProcessReads(n: Node, d: Dict, f: FunctionArgs, source: string, prev: Dict, loc: Locators)
    requires IsSha(n.sha)
  {
    && SlotReads(n, d, "ingress_subproc", f.ingress, source, prev, loc)
    && SlotReads(n, d, "integrated_subproc", f.integrated, source, prev, loc)
    && SlotReads(n, d, "egress_subproc", f.egress, source, prev, loc)
    && SlotReads(n, d, "integration_cache_subproc", f.cache, source, prev, loc)
  }

  ghost predicate InfraReads(n: Node, d: Dict, f: FunctionArgs, source: string, prev: Dict, loc: Locators)
    requires IsSha(n.sha)
  {
    SlotReads(n, d, "infrafunction_subproc", f.infra, source, prev, loc)
  }

  /** The id is that of the prior reference. */
  ghost predicate FromPrior(n: Node, prev: Dict, stem: string, id: string) {
    RefId(prev, stem, n.mesh.locators) == Ok(Some(id)) && Stable(id)
  }

  lemma RequiredIsPrior(n: Node, prev: Dict, stem: string)
    requires Require(n, prev, stem).Ok? && StableRef(prev, stem, n.mesh.locators)
    ensures FromPrior(n, prev, stem, Require(n, prev, stem).value)
  {
    RequireReads(n, prev, stem, Require(n, prev, stem).value);
  }

  lemma PartsAre(n: Node, prev: Dict, f: FunctionArgs)
    requires IsSha(n.sha) && Parts(n, prev, f).Ok?
    ensures Require(n, prev, "process_source").Ok? && Require(n, prev, "infrafunction_source").Ok?
    ensures CatStem(n, prev, "process").Ok? && CatStem(n, prev, "infrafunction").Ok?
    ensures Parts(n, prev, f) == Fill(n, f, Require(n, prev, "process_source").value,
                                      Require(n, prev, "infrafunction_source").value,
                                      CatStem(n, prev, "process").value, CatStem(n, prev, "infrafunction").value)
  {
  }

  lemma FillReads(n: Node, f: FunctionArgs, processSource: string, infraSource: string, prevProcess: Dict,
                  prevInfra: Dict, loc: Locators)
    requires Ready(n) && CarriedSlots(n, ProcessSlots(f), prevProcess) && CarriedSlots(n, InfraSlots(f), prevInfra)
    requires Fill(n, f, processSource, infraSource, prevProcess, prevInfra).Ok?
    ensures var p := Fill(n, f, processSource, infraSource, prevProcess, prevInfra).value.value;
      && p.processSource == processSource && p.infraSource == infraSource
      && ProcessReads(n, p.process, f, processSource, prevProcess, loc)
      && InfraReads(n, p.infra, f, infraSource, prevInfra, loc)
  {
    ProcessRead(n, f, processSource, prevProcess, loc);
    InfraRead(n, f, infraSource, prevInfra, loc);
  }

  /** The parts of a rebuild: both sources are the prior ones, and each slot of the new Process and InfraFunction is the
      replacement bound to its own source, or what the prior document had. */
  lemma PartsRead(n: Node, prev: Dict, f: FunctionArgs, loc: Locators)
    requires Ready(n) && StableFunction(n, prev, f) && Parts(n, prev, f).Ok?
    ensures var p := Parts(n, prev, f).value.value;
      && FromPrior(n, prev, "process_source", p.processSource)
        && FromPrior(n, prev, "infrafunction_source", p.infraSource)
      && ProcessReads(n, p.process, f, p.processSource, CatStem(n, prev, "process").value, loc)
      && InfraReads(n, p.infra, f, p.infraSource, CatStem(n, prev, "infrafunction").value, loc)
  {
    PartsAre(n, prev, f);
    RequiredIsPrior(n, prev, "process_source");
    RequiredIsPrior(n, prev, "infrafunction_source");
    FillReads(n, f, Require(n, prev, "process_source").value, Require(n, prev, "infrafunction_source").value,
              CatStem(n, prev, "process").value, CatStem(n, prev, "infrafunction").value, loc);
  }

  lemma ProcessRead(n: Node, f: FunctionArgs, source: string, prev: Dict, loc: Locators)
    requires Ready(n) && CarriedSlots(n, ProcessSlots(f), prev) && FillSlots(n, ProcessSlots(f), source, prev, []).Ok?
    ensures ProcessReads(n, FillSlots(n, ProcessSlots(f), source, prev, []).value.value, f, source, prev, loc)
  {
    var slots := ProcessSlots(f);
    ProcessSlotsGood(f);
    FillSlotsReads(n, slots, source, prev, [], loc);
    assert slots[0] == ("ingress_subproc", f.ingress) && slots[1] == ("integrated_subproc", f.integrated);
    assert slots[2] == ("egress_subproc", f.egress) && slots[3] == ("integration_cache_subproc", f.cache);
  }

  lemma InfraRead(n: Node, f: FunctionArgs, source: string, prev: Dict, loc: Locators)
    requires Ready(n) && CarriedSlots(n, InfraSlots(f), prev) && FillSlots(n, InfraSlots(f), source, prev, []).Ok?
    ensures InfraReads(n, FillSlots(n, InfraSlots(f), source, prev, []).value.value, f, source, prev, loc)
  {
    SubprocIsPlain("infrafunction_");
    FillSlotsReads(n, InfraSlots(f), source, prev, [], loc);
    assert InfraSlots(f)[0] == ("infrafunction_subproc", f.infra);
  }

  /** The rebuilt Function is the pairing of those parts, under its own id. */
  lemma RebuildLaw(n: Node, prev: Dict, f: FunctionArgs, loc: Locators)
    requires Ready(n) && StableFunction(n, prev, f) && RebuildFunction(n, prev, f).Ok?
    ensures Parts(n, prev, f).Ok?
    ensures var p := Parts(n, prev, f).value.value;
      && PairFunction(n, p).Ok?
      && RebuildFunction(n, prev, f).value.value == JsonId(n, Obj(PairFunction(n, p).value))
      && var doc := PairFunction(n, p).value;
         && RefId(doc, "process", loc) == Ok(Some(JsonId(n, Obj(p.process))))
         && RefId(doc, "infrafunction", loc) == Ok(Some(JsonId(n, Obj(p.infra))))
         && RefId(doc, "process_source", loc) == RefId(prev, "process_source", n.mesh.locators)
         && RefId(doc, "infrafunction_source", loc) == RefId(prev, "infrafunction_source", n.mesh.locators)
  {
    var p := Parts(n, prev, f).value.value;
    PartsRead(n, prev, f, loc);
    PairFunctionReads(n, p, loc);
  }
}
