/** What `_resolve_structure_pairing` makes of its arguments (cats/network/order.py). */
module StructurePairing {
  import opened CarriedRefs
  import opened Cas
  import Codec
  import opened ContentRef
  import opened Digest
  import opened Hashlink
  import opened InspectTree
  import opened Json
  import opened Lineage
  import opened Order
  import opened Text
  import opened Wrappers

  // --- what a written text reads back as -------------------------------------------------------------

  /** The id a slot has once this text was written into it: a digest in canonical form, the digest of a hashlink, what a
      URL is known as, other text as it is; nothing for blank text, a broken hashlink or an unknown URL. */
  function ReadBack(n: Node, text: string): Result<Option<string>> {
    var trimmed := Strip(text);
    if IsNiOrDigest(text) then var id :- EqualityId(text); Ok(Some(id))
    else if trimmed == [] then Ok(None)
    else if IsHl(trimmed) then Ok(match FromHl(trimmed) case Ok((ni, _)) => Some(ni) case Err(_) => None)
    else if IsHttpUri(trimmed) then
      var found :- ContentIdFromUri(trimmed, n.mesh.locators);
      Ok(if found.Some? && found.value != [] then found else None)
    else Ok(Some(trimmed))
  }

  lemma DigestTarget(id: string)
    requires IsNiOrDigest(id) && EqualityId(id).Ok?
    ensures Stable(EqualityId(id).value) && RefTarget(id) == Ok(EqualityId(id).value)
  {
    StripTwice(id);
    FromNiNamed(id);
    EqualityIdOfNamed(id);
    NamedOfNi(Named(id).value);
    EqualityIdOfNamed(EqualityId(id).value);
    FromNiNamed(EqualityId(id).value);
  }

  /** Other text is written as it is, up to white space around it. */
  lemma TextWritten(n: Node, d: Dict, stem: string, text: string)
    requires !IsNiOrDigest(text)
    ensures With(n, d, stem, text) == Ok(Del(Set(d, UriField(stem), Str(Strip(text))), CidField(stem)))
  {
    StripTwice(text);
  }

  lemma TextReads(n: Node, text: string, bare: Option<Json>, stem: string)
    requires OrdinaryStem(stem) && !IsNiOrDigest(text)
    ensures IdOfFields(Some(Str(Strip(text))), None, bare, stem, n.mesh.locators) == ReadBack(n, text)
  {
    StripTwice(text);
    StripTrims(text);
    var trimmed := Strip(text);
    if trimmed != [] && IsHl(trimmed) {
      assert ResolveIntakeRef(trimmed, n.mesh.locators).Ok? <==> FromHl(trimmed).Ok?;
    }
  }

  /** Writing succeeds unless the text is a malformed digest, and the slot then reads back as said. */
  lemma WithReadsBack(n: Node, d: Dict, stem: string, text: string)
    requires Ready(n) && OrdinaryStem(stem)
    ensures With(n, d, stem, text).Ok? <==> (IsNiOrDigest(text) ==> EqualityId(text).Ok?)
    ensures With(n, d, stem, text).Ok? ==>
      RefId(With(n, d, stem, text).value, stem, n.mesh.locators) == ReadBack(n, text)
  {
    if !IsNiOrDigest(text) {
      TextWritten(n, d, stem, text);
      WrittenField(d, stem, Str(Strip(text)));
      TextReads(n, text, Get(With(n, d, stem, text).value, "content_id"), stem);
    } else if EqualityId(text).Ok? {
      DigestTarget(text);
      WithTarget(n, d, stem, text, EqualityId(text).value);
      WithReads(n, d, stem, EqualityId(text).value, n.mesh.locators);
    }
  }

  /** What can be read back is stable, so that writing it again changes nothing; only a malformed digest fails. */
  lemma ReadBackStable(n: Node, text: string)
    requires SoundLocators(n.mesh.locators)
    ensures ReadBack(n, text).Ok? <==> (IsNiOrDigest(text) ==> EqualityId(text).Ok?)
    ensures ReadBack(n, text).Ok? && ReadBack(n, text).value.Some? ==> Stable(ReadBack(n, text).value.value)
  {
    StripTwice(text);
    StripTrims(text);
    var trimmed := Strip(text);
    if IsNiOrDigest(text) {
      if EqualityId(text).Ok? {
        DigestTarget(text);
      }
    } else if trimmed != [] && IsHl(trimmed) {
      if FromHl(trimmed).Ok? {
        FromHlStable(trimmed);
      }
    } else if trimmed != [] && IsHttpUri(trimmed) {
      UriReads(trimmed, n.mesh.locators);
    }
  }

  lemma UriReads(uri: string, loc: Locators)
    requires SoundLocators(loc)
    ensures ContentIdFromUri(uri, loc).Ok?
    ensures ContentIdFromUri(uri, loc).value.Some? ==> Stable(ContentIdFromUri(uri, loc).value.value)
  {
    if uri != [] && IsHttpUri(uri) && LdpKey(UrlPath(uri)).None? && loc(Strip(uri)).Some? {
      assert Stable(loc(Strip(uri)).value);
    }
    if ContentIdFromUri(uri, loc).value.Some? {
      UriIdStable(uri, loc);
    }
  }

  lemma StableReadsBack(n: Node, id: string)
    requires Stable(id)
    ensures ReadBack(n, id) == Ok(Some(id)) && id != []
  {
    if IsNiOrDigest(id) {
      StableDigest(id);
    }
  }

  // --- the slots of a pairing ------------------------------------------------------------------------

  /** The id a slot has after an override. */
  function Effect(n: Node, was: Option<string>, text: Option<string>): Result<Option<string>> {
    if text.None? then Ok(was) else ReadBack(n, text.value)
  }

  function Effects(n: Node, was: NestedIds, texts: NestedIds): Result<NestedIds> {
    var root :- Effect(n, was.root, texts.root);
    var plant :- Effect(n, was.plant, texts.plant);
    var infrastructure :- Effect(n, was.infrastructure, texts.infrastructure);
    Ok(NestedIds(root, plant, infrastructure))
  }

  lemma PairingStems()
    ensures Plain("root") && Plain("plant") && Plain("infrastructure")
  {
    PlainStems();
  }

  lemma IdsParts(n: Node, d: Dict, ids: NestedIds)
    ensures IdsOfPairing(n, d) == Ok(ids) <==>
      && RefId(d, "root", n.mesh.locators) == Ok(ids.root)
      && RefId(d, "plant", n.mesh.locators) == Ok(ids.plant)
      && RefId(d, "infrastructure", n.mesh.locators) == Ok(ids.infrastructure)
  {
  }

  lemma OneOverride(n: Node, d: Dict, stem: string, text: Option<string>, was: Option<string>)
    requires Ready(n) && SoundLocators(n.mesh.locators) && OrdinaryStem(stem)
    requires RefId(d, stem, n.mesh.locators) == Ok(was)
    ensures Overridden(n, d, stem, text).Ok? <==> Effect(n, was, text).Ok?
    ensures Overridden(n, d, stem, text).Ok? ==>
      RefId(Overridden(n, d, stem, text).value, stem, n.mesh.locators) == Effect(n, was, text)
  {
    if text.Some? {
      WithReadsBack(n, d, stem, text.value);
      ReadBackStable(n, text.value);
    }
  }

  lemma OtherOverride(n: Node, d: Dict, stem: string, text: Option<string>, other: string)
    requires Plain(stem) && Plain(other) && stem != other && Overridden(n, d, stem, text).Ok?
    ensures RefId(Overridden(n, d, stem, text).value, other, n.mesh.locators) == RefId(d, other, n.mesh.locators)
  {
    if text.Some? {
      WithKeeps(n, d, stem, text.value, other, n.mesh.locators);
    }
  }

  /** One override sets its slot and leaves the other two. */
  ghost predicate SetsSlot(n: Node, d: Dict, stem: string, text: Option<string>, was: Option<string>,
                           next: Result<Dict>,
                           other: string, third: string) {
    && (next.Ok? <==> Effect(n, was, text).Ok?)
    && (next.Ok? ==>
          && RefId(next.value, stem, n.mesh.locators) == Effect(n, was, text)
          && RefId(next.value, other, n.mesh.locators) == RefId(d, other, n.mesh.locators)
          && RefId(next.value, third, n.mesh.locators) == RefId(d, third, n.mesh.locators))
  }

  lemma Overriding(n: Node, d: Dict, stem: string, text: Option<string>, was: Option<string>, other: string,
                   third: string)
    requires Ready(n) && SoundLocators(n.mesh.locators) && RefId(d, stem, n.mesh.locators) == Ok(was)
    requires OrdinaryStem(stem) && Plain(stem) && Plain(other) && Plain(third) && stem != other && stem != third
    ensures SetsSlot(n, d, stem, text, was, Overridden(n, d, stem, text), other, third)
  {
    OneOverride(n, d, stem, text, was);
    if Overridden(n, d, stem, text).Ok? {
      OtherOverride(n, d, stem, text, other);
      OtherOverride(n, d, stem, text, third);
    }
  }

  /** Overriding sets exactly the overridden slots, and fails only on a malformed digest. */
  lemma OverridesRead(n: Node, d: Dict, was: NestedIds, texts: NestedIds)
    requires Ready(n) && SoundLocators(n.mesh.locators) && IdsOfPairing(n, d) == Ok(was)
    ensures Overrides(n, d, texts).Ok? <==> Effects(n, was, texts).Ok?
    ensures Overrides(n, d, texts).Ok? ==> IdsOfPairing(n, Overrides(n, d, texts).value) == Effects(n, was, texts)
  {
    PairingStems();
    IdsParts(n, d, was);
    Overriding(n, d, "root", texts.root, was.root, "plant", "infrastructure");
    var p1 := Overridden(n, d, "root", texts.root);
    if p1.Ok? {
      Overriding(n, p1.value, "plant", texts.plant, was.plant, "root", "infrastructure");
      var p2 := Overridden(n, p1.value, "plant", texts.plant);
      if p2.Ok? {
        Overriding(n, p2.value, "infrastructure", texts.infrastructure, was.infrastructure, "root", "plant");
        if Overrides(n, d, texts).Ok? {
          IdsParts(n, Overrides(n, d, texts).value, Effects(n, was, texts).value);
        }
      }
    }
  }

  // --- rewriting -------------------------------------------------------------------------------------

  /** What rewriting a slot writes into it: what it reads as. */
  function Rewrite(was: Option<string>): Option<string> {
    if was.Some? && was.value != [] then was else None
  }

  function Rewrites(was: NestedIds): NestedIds {
    NestedIds(Rewrite(was.root), Rewrite(was.plant), Rewrite(was.infrastructure))
  }

  lemma RewrittenIs(n: Node, d: Dict, stem: string, was: Option<string>)
    requires RefId(d, stem, n.mesh.locators) == Ok(was)
    ensures Rewritten(n, d, stem) == Overridden(n, d, stem, Rewrite(was))
  {
  }

  /** What was read can be written. */
  lemma ReadIsWritable(n: Node, d: Dict, stem: string, was: Option<string>)
    requires SoundLocators(n.mesh.locators) && OrdinaryStem(stem) && RefId(d, stem, n.mesh.locators) == Ok(was)
    ensures Effect(n, was, Rewrite(was)).Ok?
  {
    if Rewrite(was).Some? {
      var id := was.value;
      ReadStable(d, stem, n.mesh.locators, id);
      ReadBackStable(n, id);
      if Stable(id) {
        StableReadsBack(n, id);
      } else {
        NoDigestInUrl(id);
      }
    }
  }

  lemma NoDigestInUrl(id: string)
    requires IsHl(id) || IsHttpUri(id)
    ensures IsNiOrDigest(id) ==> EqualityId(id).Ok?
  {
    if IsNiOrDigest(id) && EqualityId(id).Err? {
      StripTwice(id);
    }
  }

  /** The ids of a pairing once every readable slot was rewritten. */
  function Settled(n: Node, was: NestedIds): Result<NestedIds> {
    Effects(n, was, Rewrites(was))
  }

  /** Canonical ids are settled. */
  lemma StableSettled(n: Node, was: Option<string>)
    requires was.Some? ==> Stable(was.value)
    ensures Effect(n, was, Rewrite(was)) == Ok(was)
  {
    if was.Some? {
      StableReadsBack(n, was.value);
    }
  }

  lemma RewritesRead(n: Node, d: Dict, was: NestedIds)
    requires Ready(n) && SoundLocators(n.mesh.locators) && IdsOfPairing(n, d) == Ok(was)
    ensures Settled(n, was).Ok? && RewrittenAll(n, d).Ok?
    ensures IdsOfPairing(n, RewrittenAll(n, d).value) == Settled(n, was)
  {
    var texts := Rewrites(was);
    PairingStems();
    IdsParts(n, d, was);
    ReadIsWritable(n, d, "root", was.root);
    ReadIsWritable(n, d, "plant", was.plant);
    ReadIsWritable(n, d, "infrastructure", was.infrastructure);
    RewrittenIs(n, d, "root", was.root);
    Overriding(n, d, "root", texts.root, was.root, "plant", "infrastructure");
    var q1 := Rewritten(n, d, "root").value;
    RewrittenIs(n, q1, "plant", was.plant);
    Overriding(n, q1, "plant", texts.plant, was.plant, "root", "infrastructure");
    var q2 := Rewritten(n, q1, "plant").value;
    RewrittenIs(n, q2, "infrastructure", was.infrastructure);
    OverridesRead(n, d, was, texts);
  }

  /** A pairing that cannot be read cannot be rewritten. */
  lemma UnreadableFails(n: Node, d: Dict)
    requires Ready(n) && SoundLocators(n.mesh.locators) && IdsOfPairing(n, d).Err?
    ensures RewrittenAll(n, d).Err?
  {
    PairingStems();
    if RewrittenAll(n, d).Ok? {
      var root := RefId(d, "root", n.mesh.locators).value;
      RewrittenIs(n, d, "root", root);
      Overriding(n, d, "root", Rewrite(root), root, "plant", "infrastructure");
      var q1 := Rewritten(n, d, "root").value;
      var plant := RefId(q1, "plant", n.mesh.locators).value;
      RewrittenIs(n, q1, "plant", plant);
      Overriding(n, q1, "plant", Rewrite(plant), plant, "root", "infrastructure");
    }
  }

  // --- the guard -------------------------------------------------------------------------------------

  function Texts(s: StructureArgs): NestedIds {
    NestedIds(s.root, s.plant, s.infrastructure)
  }

  lemma NoIds(n: Node)
    ensures IdsOfPairing(n, []) == Ok(NestedIds(None, None, None))
  {
    PairingStems();
  }

  lemma PrevParts(n: Node, prev: Dict)
    requires PrevIds(n, prev).Ok?
    ensures var ids := PrevIds(n, prev).value;
      && IdsOfPairing(n, prev) == Ok(ids) && Rewrites(ids) == ids
      && ids.root.Some? && ids.plant.Some? && ids.infrastructure.Some?
  {
  }

  lemma StartsSettled(n: Node, ids: NestedIds)
    requires ids.root.Some? && ids.plant.Some? && ids.infrastructure.Some? && Rewrites(ids) == ids
    ensures Effects(n, NestedIds(None, None, None), ids) == Settled(n, ids)
  {
  }

  /** Settling again changes nothing. */
  lemma SettledTwice(n: Node, ids: NestedIds)
    requires SoundLocators(n.mesh.locators) && Settled(n, ids).Ok?
    requires ids.root.Some? && ids.plant.Some? && ids.infrastructure.Some? && Rewrites(ids) == ids
    ensures Settled(n, Settled(n, ids).value) == Settled(n, ids)
  {
    var settled := Settled(n, ids).value;
    ReadBackStable(n, ids.root.value);
    ReadBackStable(n, ids.plant.value);
    ReadBackStable(n, ids.infrastructure.value);
    StableSettled(n, settled.root);
    StableSettled(n, settled.plant);
    StableSettled(n, settled.infrastructure);
  }

  /** What the overrides start from without a directory: the prior ids, settled. */
  lemma StartReads(n: Node, s: StructureArgs, prev: Dict)
    requires Ready(n) && SoundLocators(n.mesh.locators) && s.filepath.None? && PrevIds(n, prev).Ok?
    ensures var ids := PrevIds(n, prev).value;
      && StartPairing(n, s, ids).Ok? && Settled(n, ids).Ok?
      && IdsOfPairing(n, StartPairing(n, s, ids).value) == Settled(n, ids)
  {
    var ids, none := PrevIds(n, prev).value, NestedIds(None, None, None);
    PrevParts(n, prev);
    RewritesRead(n, prev, ids);
    NoIds(n);
    OverridesRead(n, [], none, ids);
    StartsSettled(n, ids);
    var p0, settled := Overrides(n, [], ids).value, Settled(n, ids).value;
    RewritesRead(n, p0, settled);
    SettledTwice(n, ids);
    assert StartPairing(n, s, ids) == RewrittenAll(n, p0);
  }

  /** The guard over any start. */
  lemma GuardIff(n: Node, prev: Dict, s: StructureArgs, start: NestedIds)
    requires Ready(n) && SoundLocators(n.mesh.locators) && AsksStructure(s) && PrevIds(n, prev).Ok?
    requires var p := StartPairing(n, s, PrevIds(n, prev).value); p.Ok? && IdsOfPairing(n, p.value) == Ok(start)
    ensures var after := Effects(n, start, Texts(s));
      && (ResolvePairing(n, prev, s).Ok? <==> after.Ok? && after.value != PrevIds(n, prev).value)
      && (ResolvePairing(n, prev, s).Ok? ==> IdsOfPairing(n, ResolvePairing(n, prev, s).value) == after)
  {
    OverridesRead(n, StartPairing(n, s, PrevIds(n, prev).value).value, start, Texts(s));
  }

  /** The exact guard of a Structure mutation by overrides: whatever text an override is, the mutation succeeds if and
      only if no override is a malformed digest and some slot then reads as another id than before. */
  lemma OverridesIff(n: Node, prev: Dict, s: StructureArgs)
    requires Ready(n) && SoundLocators(n.mesh.locators) && s.filepath.None? && AsksStructure(s) && PrevIds(n, prev).Ok?
    ensures Settled(n, PrevIds(n, prev).value).Ok?
    ensures var after := Effects(n, Settled(n, PrevIds(n, prev).value).value, Texts(s));
      && (ResolvePairing(n, prev, s).Ok? <==> after.Ok? && after.value != PrevIds(n, prev).value)
      && (ResolvePairing(n, prev, s).Ok? ==> IdsOfPairing(n, ResolvePairing(n, prev, s).value) == after)
  {
    StartReads(n, s, prev);
    GuardIff(n, prev, s, Settled(n, PrevIds(n, prev).value).value);
  }

  /** The same for a mutation from a directory, over the ids its pairing has; it fails as well where they cannot be
      read. */
  lemma FilepathIff(n: Node, prev: Dict, s: StructureArgs)
    requires Ready(n) && SoundLocators(n.mesh.locators) && s.filepath.Some? && PrevIds(n, prev).Ok?
    ensures ResolvePairing(n, prev, s).Ok? ==>
      n.pairing(s.filepath.value).Ok? && IdsOfPairing(n, n.pairing(s.filepath.value).value).Ok?
    ensures n.pairing(s.filepath.value).Ok? && IdsOfPairing(n, n.pairing(s.filepath.value).value).Ok? ==>
      var found := IdsOfPairing(n, n.pairing(s.filepath.value).value).value;
      && Settled(n, found).Ok?
      && var after := Effects(n, Settled(n, found).value, Texts(s));
         && (ResolvePairing(n, prev, s).Ok? <==> after.Ok? && after.value != PrevIds(n, prev).value)
         && (ResolvePairing(n, prev, s).Ok? ==> IdsOfPairing(n, ResolvePairing(n, prev, s).value) == after)
  {
    var p0 := n.pairing(s.filepath.value);
    if p0.Ok? {
      assert StartPairing(n, s, PrevIds(n, prev).value) == RewrittenAll(n, p0.value);
      if IdsOfPairing(n, p0.value).Ok? {
        var found := IdsOfPairing(n, p0.value).value;
        RewritesRead(n, p0.value, found);
        GuardIff(n, prev, s, Settled(n, found).value);
      } else {
        UnreadableFails(n, p0.value);
      }
    }
  }

  // --- the Structure of a link step ------------------------------------------------------------------

  lemma RequireOf(n: Node, a: Dict, b: Dict, stem: string)
    requires RefId(a, stem, n.mesh.locators) == RefId(b, stem, n.mesh.locators)
    ensures Require(n, a, stem) == Require(n, b, stem)
  {
  }

  lemma PrevOf(n: Node, a: Dict, b: Dict)
    requires Require(n, a, "root") == Require(n, b, "root") && Require(n, a, "plant") == Require(n, b, "plant")
    requires Require(n, a, "infrastructure") == Require(n, b, "infrastructure")
    ensures PrevIds(n, a) == PrevIds(n, b)
  {
  }

  lemma ResolvedOf(n: Node, a: Dict, b: Dict, s: StructureArgs)
    requires PrevIds(n, a) == PrevIds(n, b)
    ensures ResolvePairing(n, a, s) == ResolvePairing(n, b, s)
  {
  }

  /** Only the nested references of the prior pairing matter, and a bag hides none of them. */
  lemma PriorWithoutBag(n: Node, prev: Dict, s: StructureArgs)
    ensures ResolvePairing(n, Del(prev, FLAT), s) == ResolvePairing(n, prev, s)
  {
    var bare := Del(prev, FLAT);
    FlatHidesNothing(prev, "root", n.mesh);
    RequireOf(n, bare, prev, "root");
    FlatHidesNothing(prev, "plant", n.mesh);
    RequireOf(n, bare, prev, "plant");
    FlatHidesNothing(prev, "infrastructure", n.mesh);
    RequireOf(n, bare, prev, "infrastructure");
    PrevOf(n, bare, prev);
    ResolvedOf(n, bare, prev, s);
  }

  lemma ResolvedAsks(n: Node, prev: Dict, s: StructureArgs)
    requires ResolvePairing(n, prev, s).Ok?
    ensures AsksStructure(s) && PrevIds(n, prev).Ok?
  {
  }

  lemma NewPairingIs(n: Node, order: Dict, s: StructureArgs, id: string, name: Option<Json>) returns (pairing: Dict)
    requires IsSha(n.sha) && NewStructure(n, order, s).Ok? && NewStructure(n, order, s).value.value == (id, name)
    ensures NestedDoc(order, "structure").Ok?
    ensures ResolvePairing(n, NestedDoc(order, "structure").value, s) == Ok(pairing)
    ensures id == JsonId(n, Obj(pairing)) && NewStructure(n, order, s).value.puts == [n.dumps(Obj(pairing))]
  {
    pairing := LinkedStructure(n, order, s).value.0;
  }

  /** The pairing that a step which asks for a Structure puts and refers to. */
  lemma PairingOfStep(n: Node, bom: Dict, link: Link, loc: Locators) returns (prior: Dict, pairing: Dict)
    requires Ready(n) && StoredNoFlat(n.mesh) && StableRun(n.mesh, bom) && Linked(n, bom, link).Ok?
      && !CarriesStructure(link)
    ensures StoredRun(n.mesh, bom).Some?
      && StoredDoc(n.mesh, StoredRun(n.mesh, bom).value.1, "structure") == Some(prior)
    ensures ResolvePairing(n, prior, link.s) == Ok(pairing)
    ensures RefId(Linked(n, bom, link).value.value.order, "structure", loc) == Ok(Some(JsonId(n, Obj(pairing))))
    ensures n.dumps(Obj(pairing)) in Linked(n, bom, link).value.puts
  {
    LinkedStep(n, bom, link);
    var (invoice, order) := PriorRun(n, bom).value;
    var c := StepChoice(n, invoice, order, link);
    PriorIsStored(n, bom, 4);
    ChoiceStable(n, invoice, order, link, c);
    MintsReads(n, order, c, Linked(n, bom, link).value.value, loc);
    pairing := NewPairingIs(n, order, link.s, c.structureId, c.name);
    PriorNested(n, bom, 4, "structure");
    StepAssembles(n, invoice, order, link);
    AssemblePuts(n, order, FunctionOf(n, order, link), StructureOf(n, order, link), Require(n, invoice, "data"));
    assert n.dumps(Obj(pairing)) in StructureOf(n, order, link).value.puts;
    prior := Del(NestedDoc(order, "structure").value, FLAT);
    PriorWithoutBag(n, NestedDoc(order, "structure").value, link.s);
  }

  /** A step that asks for a Structure without a directory puts a pairing, and the new Order refers to it: each override
      it was given reads back from its own slot, every other slot as the stored prior Structure has it. */
  lemma NewStructureLaw(n: Node, bom: Dict, link: Link, loc: Locators) returns (prior: Dict, pairing: Dict)
    requires Ready(n) && StoredNoFlat(n.mesh) && StableRun(n.mesh, bom) && SoundLocators(n.mesh.locators)
      && Linked(n, bom, link).Ok? && !CarriesStructure(link) && link.s.filepath.None?
    ensures StoredRun(n.mesh, bom).Some?
      && StoredDoc(n.mesh, StoredRun(n.mesh, bom).value.1, "structure") == Some(prior)
    ensures n.dumps(Obj(pairing)) in Linked(n, bom, link).value.puts
    ensures RefId(Linked(n, bom, link).value.value.order, "structure", loc) == Ok(Some(JsonId(n, Obj(pairing))))
    ensures SlotIs(n, prior, pairing, "root", link.s.root) && SlotIs(n, prior, pairing, "plant", link.s.plant)
      && SlotIs(n, prior, pairing, "infrastructure", link.s.infrastructure)
  {
    prior, pairing := PairingOfStep(n, bom, link, loc);
    ResolvedAsks(n, prior, link.s);
    OverridesIff(n, prior, link.s);
    SlotsAre(n, prior, pairing, link.s);
  }

  /** What one slot of a new pairing reads as. */
  ghost predicate SlotIs(n: Node, prior: Dict, pairing: Dict, stem: string, text: Option<string>) {
    if text.Some? then RefId(pairing, stem, n.mesh.locators) == ReadBack(n, text.value)
    else
      var was := RefId(prior, stem, n.mesh.locators);
      && was.Ok? && was.value.Some?
      && RefId(pairing, stem, n.mesh.locators) == ReadBack(n, was.value.value)
  }

  lemma EffectsParts(n: Node, was: NestedIds, texts: NestedIds)
    requires Effects(n, was, texts).Ok?
    ensures var after := Effects(n, was, texts).value;
      && Effect(n, was.root, texts.root) == Ok(after.root) && Effect(n, was.plant, texts.plant) == Ok(after.plant)
      && Effect(n, was.infrastructure, texts.infrastructure) == Ok(after.infrastructure)
  {
  }

  lemma SlotIsSettled(n: Node, prior: Dict, pairing: Dict, stem: string, text: Option<string>, was: Option<string>,
                      settled: Option<string>)
    requires RefId(prior, stem, n.mesh.locators) == Ok(was) && was.Some? && Effect(n, was, was) == Ok(settled)
    requires RefId(pairing, stem, n.mesh.locators) == Effect(n, settled, text)
    ensures SlotIs(n, prior, pairing, stem, text)
  {
  }

  lemma SlotsAre(n: Node, prior: Dict, pairing: Dict, s: StructureArgs)
    requires PrevIds(n, prior).Ok? && Settled(n, PrevIds(n, prior).value).Ok?
    requires Effects(n, Settled(n, PrevIds(n, prior).value).value, Texts(s)).Ok?
    requires IdsOfPairing(n, pairing) == Effects(n, Settled(n, PrevIds(n, prior).value).value, Texts(s))
    ensures SlotIs(n, prior, pairing, "root", s.root) && SlotIs(n, prior, pairing, "plant", s.plant)
      && SlotIs(n, prior, pairing, "infrastructure", s.infrastructure)
  {
    var was := PrevIds(n, prior).value;
    PrevParts(n, prior);
    var settled := Settled(n, was).value;
    EffectsParts(n, was, was);
    EffectsParts(n, settled, Texts(s));
    IdsParts(n, prior, was);
    IdsParts(n, pairing, Effects(n, settled, Texts(s)).value);
    SlotIsSettled(n, prior, pairing, "root", s.root, was.root, settled.root);
    SlotIsSettled(n, prior, pairing, "plant", s.plant, was.plant, settled.plant);
    SlotIsSettled(n, prior, pairing, "infrastructure", s.infrastructure, was.infrastructure, settled.infrastructure);
  }

  // --- spellings -------------------------------------------------------------------------------------

  /** The text names the id the slot has, in whatever spelling, or there is no override. */
  ghost predicate Respells(n: Node, was: Option<string>, text: Option<string>) {
    text.Some? ==> ReadBack(n, text.value) == Ok(was)
  }

  /** Re-spelling ids that are already there in canonical form is refused. */
  lemma RespellingFails(n: Node, prev: Dict, s: StructureArgs)
    requires Ready(n) && SoundLocators(n.mesh.locators) && s.filepath.None? && PrevIds(n, prev).Ok?
    requires var ids := PrevIds(n, prev).value;
      && Stable(ids.root.value) && Stable(ids.plant.value) && Stable(ids.infrastructure.value)
      && Respells(n, ids.root, s.root) && Respells(n, ids.plant, s.plant)
      && Respells(n, ids.infrastructure, s.infrastructure)
    ensures ResolvePairing(n, prev, s).Err?
  {
    var ids := PrevIds(n, prev).value;
    StableSettled(n, ids.root);
    StableSettled(n, ids.plant);
    StableSettled(n, ids.infrastructure);
    if AsksStructure(s) {
      OverridesIff(n, prev, s);
    }
  }

  /** The spellings of a digest: `ni:` or hex, a hashlink, a CAS URL of any node. */
  lemma SpellingsReadBack(n: Node, id: string, base: string, uri: string)
    requires Named(id).Some? && HostOnly(base) && '\n' !in Strip(uri)
    ensures EqualityId(id).Ok? && ReadBack(n, id) == Ok(Some(EqualityId(id).value))
    ensures ToHl(id, [uri]).Ok? && ReadBack(n, ToHl(id, [uri]).value) == ReadBack(n, id)
    ensures CasLdpUri(Codec.BytesToHex(Named(id).value), base).Ok?
    ensures ReadBack(n, CasLdpUri(Codec.BytesToHex(Named(id).value), base).value) == ReadBack(n, id)
  {
    EqualityIdOfNamed(id);
    FromNiNamed(id);
    HlReads(n, id, uri);
    var raw := Named(id).value;
    NiOfShape(raw);
    CasUriRoundTrip(Codec.BytesToHex(raw), base, n.mesh.locators);
    Codec.BytesToHexToBytes(raw);
    UrlIsNoDigestText(CasLdpUri(Codec.BytesToHex(raw), base).value);
  }

  lemma UrlIsNoDigestText(text: string)
    requires IsHl(text) || IsHttpUri(text)
    ensures !IsNiOrDigest(text)
  {
    if IsNiOrDigest(text) {
      DigestIsNoUrl(text);
    }
  }

  lemma HlReads(n: Node, id: string, uri: string)
    requires Named(id).Some? && '\n' !in Strip(uri)
    ensures ToHl(id, [uri]).Ok? && EqualityId(id).Ok?
    ensures ReadBack(n, ToHl(id, [uri]).value) == Ok(Some(EqualityId(id).value))
  {
    HlRoundTrip(id, uri);
    HashlinkReads(n, ToHl(id, [uri]).value);
  }

  lemma HashlinkReads(n: Node, text: string)
    requires FromHl(text).Ok?
    ensures ReadBack(n, text) == Ok(Some(FromHl(text).value.0))
  {
    StripTwice(text);
    HashlinkShape(Strip(text));
    UrlIsNoDigestText(text);
  }

  lemma HashlinkShape(text: string)
    requires HlGroups(text).Some?
    ensures Lower(text)[..3] == "hl:" && text != []
  {
    assert text[..3] == "hl:";
  }

  /** A URL the node knows nothing about is taken for a change: the mutation succeeds, and the slot cannot be read. */
  lemma UnknownUrlAccepted(n: Node, prev: Dict, s: StructureArgs, url: string)
    requires Ready(n) && SoundLocators(n.mesh.locators) && s.filepath.None? && PrevIds(n, prev).Ok?
    requires s == StructureArgs(None, Some(url), None, None, s.filepathName) && ReadBack(n, url) == Ok(None)
    ensures ResolvePairing(n, prev, s).Ok?
    ensures RefId(ResolvePairing(n, prev, s).value, "root", n.mesh.locators) == Ok(None)
  {
    PrevParts(n, prev);
    OverridesIff(n, prev, s);
    IdsParts(n, ResolvePairing(n, prev, s).value,
             Effects(n, Settled(n, PrevIds(n, prev).value).value, Texts(s)).value);
  }
}
