/** The link operations as they run: documents are built step by step and put into the store
    (cats/network/order.py). */
module Minting {
  import opened AddressStore
  import opened Cas
  import opened Creation
  import opened FunctionChange
  import opened FunctionRebuild
  import InspectTree
  import opened Json
  import opened Lineage
  import opened Manifest
  import opened Order
  import opened Text
  import opened Wrappers

  /** Every blob is filed under its own digest. */
  ghost predicate Intact(sha: Sha, blobs: Blobs) {
    forall d :: d in blobs ==> sha(blobs[d]) == d
  }

  ghost predicate HoldsPuts(sha: Sha, blobs: Blobs, puts: seq<seq<Byte>>) {
    forall i :: 0 <= i < |puts| ==> Holds(sha, blobs, puts[i])
  }

  /** The store only grew, and stayed intact if it was. */
  ghost predicate Grew(sha: Sha, before: Blobs, after: Blobs) {
    Extends(after, before) && (Intact(sha, before) ==> Intact(sha, after))
  }

  /** An operation did what its specification says: success gives the specified value with everything put, and on an
      intact store, barring a digest collision, it succeeds whenever the specification does. */
  ghost predicate Performed<T>(sha: Sha, before: Blobs, after: Blobs, spec: Result<Put<T>>, r: Result<T>) {
    && Grew(sha, before, after)
    && (r.Ok? ==> spec.Ok? && r.value == spec.value.value && HoldsPuts(sha, after, spec.value.puts))
    && (r.Err? && spec.Ok? ==> !(Intact(sha, before) && Unforged(sha, spec.value.puts)))
  }

  lemma StillHolds(sha: Sha, before: Blobs, after: Blobs, puts: seq<seq<Byte>>)
    requires HoldsPuts(sha, before, puts) && Extends(after, before)
    ensures HoldsPuts(sha, after, puts)
  {
  }

  lemma HoldsConcat(sha: Sha, blobs: Blobs, a: seq<seq<Byte>>, b: seq<seq<Byte>>)
    requires HoldsPuts(sha, blobs, a) && HoldsPuts(sha, blobs, b)
    ensures HoldsPuts(sha, blobs, a + b)
  {
  }

  lemma UnforgedParts(sha: Sha, a: seq<seq<Byte>>, b: seq<seq<Byte>>)
    requires Unforged(sha, a + b)
    ensures Unforged(sha, a) && Unforged(sha, b)
  {
    forall i | 0 <= i < |a| ensures NoCollision(sha, a[i]) { assert (a + b)[i] == a[i]; }
    forall i | 0 <= i < |b| ensures NoCollision(sha, b[i]) { assert (a + b)[|a| + i] == b[i]; }
  }

  /** The specification of doing one thing and then, with its value, another. */
  ghost function Then<T>(puts: seq<seq<Byte>>, rest: Result<Put<T>>): Result<Put<T>> {
    match rest case Ok(p) => Ok(Put(puts + p.puts, p.value)) case Err(e) => Err(e)
  }

  lemma PerformedThen<T>(sha: Sha, start: Blobs, middle: Blobs, end: Blobs, puts: seq<seq<Byte>>,
                         rest: Result<Put<T>>, r: Result<T>)
    requires Grew(sha, start, middle) && HoldsPuts(sha, middle, puts) && Performed(sha, middle, end, rest, r)
    ensures Performed(sha, start, end, Then(puts, rest), r)
  {
    StillHolds(sha, middle, end, puts);
    if r.Ok? {
      HoldsConcat(sha, end, puts, rest.value.puts);
    } else if rest.Ok? && Unforged(sha, puts + rest.value.puts) {
      UnforgedParts(sha, puts, rest.value.puts);
    }
  }

  /** `put_bytes`. */
  method PutBytes(store: CasHttpStore, data: seq<Byte>) returns (r: Result<string>)
    requires IsSha(store.sha)
    modifies store
    ensures Performed(store.sha, old(store.blobs), store.blobs, Ok(Put([data], NiText(store.sha, data))), r)
  {
    assert Unforged(store.sha, [data]) ==> NoCollision(store.sha, [data][0]);
    r := store.Put(data);
  }

  /** `bind_subproc`, or the id the slot had. */
  method FillSlot(store: CasHttpStore, n: Node, stem: string, replacement: Option<string>, source: string, prev: Dict)
    returns (r: Result<string>)
    requires IsSha(n.sha) && store.sha == n.sha
    modifies store
    ensures Performed(n.sha, old(store.blobs), store.blobs, SlotId(n, stem, replacement, source, prev), r)
  {
    match replacement
    case Some(callable) =>
      r := PutBytes(store, n.bind(callable, source));
    case None =>
      r := Require(n, prev, stem);
  }

  lemma SlotStep(n: Node, slots: seq<(string, Option<string>)>, source: string, prev: Dict, doc: Dict)
    requires IsSha(n.sha) && slots != []
    ensures var slot := SlotId(n, slots[0].0, slots[0].1, source, prev);
      && (slot.Err? ==> FillSlots(n, slots, source, prev, doc).Err?)
      && (slot.Ok? ==> var doc1 := With(n, doc, slots[0].0, slot.value.value);
           && (doc1.Err? ==> FillSlots(n, slots, source, prev, doc).Err?)
           && (doc1.Ok? ==>
                 FillSlots(n, slots, source, prev, doc)
                      == Then(slot.value.puts, FillSlots(n, slots[1..], source, prev, doc1.value))))
  {
  }

  lemma ThenThen<T>(a: seq<seq<Byte>>, b: seq<seq<Byte>>, rest: Result<Put<T>>)
    ensures Then(a, Then(b, rest)) == Then(a + b, rest)
  {
    if rest.Ok? {
      assert a + (b + rest.value.puts) == a + b + rest.value.puts;
    }
  }

  lemma ThenNothing<T>(rest: Result<Put<T>>)
    ensures Then([], rest) == rest
  {
    if rest.Ok? {
      assert [] + rest.value.puts == rest.value.puts;
    }
  }

  /** The loop over the slots of a Process or InfraFunction. */
  method FillSlotsLoop(store: CasHttpStore, n: Node, slots: seq<(string, Option<string>)>, source: string, prev: Dict)
    returns (r: Result<Dict>)
    requires IsSha(n.sha) && store.sha == n.sha
    modifies store
    ensures Performed(n.sha, old(store.blobs), store.blobs, FillSlots(n, slots, source, prev, []), r)
  {
    var doc: Dict := [];
    ghost var puts: seq<seq<Byte>> := [];
    ghost var start := store.blobs;
    ghost var spec := FillSlots(n, slots, source, prev, []);
    assert slots[0..] == slots;
    ThenNothing(spec);
    for i := 0 to |slots|
      invariant Grew(n.sha, start, store.blobs) && HoldsPuts(n.sha, store.blobs, puts)
      invariant spec == Then(puts, FillSlots(n, slots[i..], source, prev, doc))
    {
      assert slots[i..][0] == slots[i] && slots[i..][1..] == slots[i + 1..];
      SlotStep(n, slots[i..], source, prev, doc);
      ghost var before := store.blobs;
      var (stem, replacement) := slots[i];
      ghost var slot := SlotId(n, stem, replacement, source, prev);
      var id := FillSlot(store, n, stem, replacement, source, prev);
      if id.Err? {
        PartFails(n.sha, start, before, store.blobs, slot, id, spec);
        return Err(id.message);
      }
      StillHolds(n.sha, before, store.blobs, puts);
      HoldsConcat(n.sha, store.blobs, puts, slot.value.puts);
      var doc1 := With(n, doc, stem, id.value);
      if doc1.Err? {
        return Err(doc1.message);
      }
      ThenThen(puts, slot.value.puts, FillSlots(n, slots[i + 1..], source, prev, doc1.value));
      puts := puts + slot.value.puts;
      doc := doc1.value;
    }
    assert puts + [] == puts;
    return Ok(doc);
  }

  /** A part that fails makes the whole specification fail, or is a collision. */
  lemma PartFails<T, U>(sha: Sha, start: Blobs, before: Blobs, after: Blobs, part: Result<Put<T>>, r: Result<T>,
                        spec: Result<Put<U>>)
    requires Grew(sha, start, before) && Performed(sha, before, after, part, r) && r.Err?
    requires spec.Ok? ==> part.Ok? && forall b :: b in part.value.puts ==> b in spec.value.puts
    ensures spec.Ok? ==> !(Intact(sha, start) && Unforged(sha, spec.value.puts))
    ensures Grew(sha, start, after)
  {
    if spec.Ok? && Unforged(sha, spec.value.puts) {
      forall i | 0 <= i < |part.value.puts| ensures NoCollision(sha, part.value.puts[i]) {
        assert part.value.puts[i] in spec.value.puts;
      }
    }
  }

  /** The two parts of a Function, slot by slot. */
  method FillAndPut(store: CasHttpStore, n: Node, f: FunctionArgs, processSource: string, infraSource: string,
                    prevProcess: Dict, prevInfra: Dict) returns (r: Result<FunctionParts>)
    requires IsSha(n.sha) && store.sha == n.sha
    modifies store
    ensures Performed(n.sha, old(store.blobs), store.blobs,
                      Fill(n, f, processSource, infraSource, prevProcess, prevInfra), r)
  {
    ghost var start := store.blobs;
    ghost var spec := Fill(n, f, processSource, infraSource, prevProcess, prevInfra);
    ghost var first := FillSlots(n, ProcessSlots(f), processSource, prevProcess, []);
    ghost var second := FillSlots(n, InfraSlots(f), infraSource, prevInfra, []);
    FillParts(n, f, processSource, infraSource, prevProcess, prevInfra);
    var process := FillSlotsLoop(store, n, ProcessSlots(f), processSource, prevProcess);
    if process.Err? {
      PartFails(n.sha, start, start, store.blobs, first, process, spec);
      return Err(process.message);
    }
    ghost var before := store.blobs;
    var infra := FillSlotsLoop(store, n, InfraSlots(f), infraSource, prevInfra);
    if infra.Err? {
      PartFails(n.sha, start, before, store.blobs, second, infra, spec);
      return Err(infra.message);
    }
    StillHolds(n.sha, before, store.blobs, first.value.puts);
    HoldsConcat(n.sha, store.blobs, first.value.puts, second.value.puts);
    return Ok(FunctionParts(process.value, infra.value, processSource, infraSource));
  }

  method BuildParts(store: CasHttpStore, n: Node, prev: Dict, f: FunctionArgs) returns (r: Result<FunctionParts>)
    requires IsSha(n.sha) && store.sha == n.sha
    modifies store
    ensures Performed(n.sha, old(store.blobs), store.blobs, Parts(n, prev, f), r)
  {
    var processSource :- Require(n, prev, "process_source");
    var infraSource :- Require(n, prev, "infrafunction_source");
    var prevProcess :- CatStem(n, prev, "process");
    var prevInfra :- CatStem(n, prev, "infrafunction");
    r := FillAndPut(store, n, f, processSource, infraSource, prevProcess, prevInfra);
    if r.Err? && Parts(n, prev, f).Ok? {
      PartsAre(n, prev, f);
    }
  }

  /** `put_json`. */
  method PutJson(store: CasHttpStore, n: Node, j: Json) returns (r: Result<string>)
    requires IsSha(n.sha) && store.sha == n.sha
    modifies store
    ensures Performed(n.sha, old(store.blobs), store.blobs, Ok(Put([n.dumps(j)], JsonId(n, j))), r)
  {
    r := PutBytes(store, n.dumps(j));
  }

  /** Puts documents one after another. */
  method PutAll(store: CasHttpStore, n: Node, docs: seq<Json>) returns (r: Result<()>)
    requires IsSha(n.sha) && store.sha == n.sha
    modifies store
    ensures Performed(n.sha, old(store.blobs), store.blobs, Ok(Put(Encoded(n, docs), ())), r)
  {
    ghost var start := store.blobs;
    for i := 0 to |docs|
      invariant Grew(n.sha, start, store.blobs) && HoldsPuts(n.sha, store.blobs, Encoded(n, docs)[..i])
    {
      ghost var before := store.blobs;
      var id := PutJson(store, n, docs[i]);
      if id.Err? {
        assert Encoded(n, docs)[i] == n.dumps(docs[i]);
        PartFails(n.sha, start, before, store.blobs, Ok(Put([n.dumps(docs[i])], JsonId(n, docs[i]))), id,
                  Ok(Put(Encoded(n, docs), ())));
        return Err(id.message);
      }
      StillHolds(n.sha, before, store.blobs, Encoded(n, docs)[..i]);
      HoldsConcat(n.sha, store.blobs, Encoded(n, docs)[..i], [n.dumps(docs[i])]);
      assert Encoded(n, docs)[..i + 1] == Encoded(n, docs)[..i] + [n.dumps(docs[i])];
    }
    return Ok(());
  }

  ghost function Encoded(n: Node, docs: seq<Json>): (e: seq<seq<Byte>>)
    ensures |e| == |docs|
  {
    seq(|docs|, i requires 0 <= i < |docs| => n.dumps(docs[i]))
  }

  lemma Encoded2(n: Node, a: Json, b: Json)
    ensures Encoded(n, [a, b]) == [n.dumps(a), n.dumps(b)]
  {
  }

  /** `_rebuild_function`. */
  method RebuildAndPut(store: CasHttpStore, n: Node, prev: Dict, f: FunctionArgs) returns (r: Result<string>)
    requires IsSha(n.sha) && store.sha == n.sha
    modifies store
    ensures Performed(n.sha, old(store.blobs), store.blobs, RebuildFunction(n, prev, f), r)
  {
    ghost var start := store.blobs;
    var parts := BuildParts(store, n, prev, f);
    if parts.Err? {
      PartFails(n.sha, start, start, store.blobs, Parts(n, prev, f), parts, RebuildFunction(n, prev, f));
      return Err(parts.message);
    }
    ghost var middle := store.blobs;
    r := PutFunction(store, n, parts.value);
    RebuildIs(n, prev, f);
    PerformedThen(n.sha, start, middle, store.blobs, Parts(n, prev, f).value.puts, FunctionPut(n, parts.value), r);
  }

  /** What putting a Function with its two parts amounts to. */
  ghost function FunctionPut(n: Node, p: FunctionParts): Result<Put<string>>
    requires IsSha(n.sha)
  {
    match PairFunction(n, p)
    case Err(e) => Err(e)
    case Ok(doc) => Ok(Put([n.dumps(Obj(p.process)), n.dumps(Obj(p.infra)), n.dumps(Obj(doc))], JsonId(n, Obj(doc))))
  }

  lemma RebuildIs(n: Node, prev: Dict, f: FunctionArgs)
    requires IsSha(n.sha) && Parts(n, prev, f).Ok?
    ensures var parts := Parts(n, prev, f).value;
      && (FunctionPut(n, parts.value).Err? <==> RebuildFunction(n, prev, f).Err?)
      && (FunctionPut(n, parts.value).Ok? ==>
          RebuildFunction(n, prev, f) == Then(parts.puts, FunctionPut(n, parts.value)))
  {
    var parts := Parts(n, prev, f).value;
    if PairFunction(n, parts.value).Ok? {
      var doc := PairFunction(n, parts.value).value;
      assert parts.puts + [n.dumps(Obj(parts.value.process)), n.dumps(Obj(parts.value.infra))] + [n.dumps(Obj(doc))]
          == parts.puts + [n.dumps(Obj(parts.value.process)), n.dumps(Obj(parts.value.infra)), n.dumps(Obj(doc))];
    }
  }

  method PutFunction(store: CasHttpStore, n: Node, p: FunctionParts) returns (r: Result<string>)
    requires IsSha(n.sha) && store.sha == n.sha
    modifies store
    ensures Performed(n.sha, old(store.blobs), store.blobs, FunctionPut(n, p), r)
  {
    ghost var start := store.blobs;
    var both := PutAll(store, n, [Obj(p.process), Obj(p.infra)]);
    Encoded2(n, Obj(p.process), Obj(p.infra));
    if both.Err? {
      PartFails(n.sha, start, start, store.blobs, Ok(Put([n.dumps(Obj(p.process)), n.dumps(Obj(p.infra))], ())), both,
                FunctionPut(n, p));
      return Err(both.message);
    }
    var doc := PairFunction(n, p);
    if doc.Err? {
      return Err(doc.message);
    }
    ghost var middle := store.blobs;
    r := PutJson(store, n, Obj(doc.value));
    ghost var puts := [n.dumps(Obj(p.process)), n.dumps(Obj(p.infra))];
    PerformedThen(n.sha, start, middle, store.blobs, puts,
                  Ok(Put([n.dumps(Obj(doc.value))], JsonId(n, Obj(doc.value)))), r);
    assert puts + [n.dumps(Obj(doc.value))]
         == [n.dumps(Obj(p.process)), n.dumps(Obj(p.infra)), n.dumps(Obj(doc.value))];
  }

  /** The prior Order is edited field by field. */
  method EditShell(n: Node, prior: Dict, functionId: string, structureId: string, invoiceId: string, name: Option<Json>)
    returns (r: Result<Dict>)
    ensures r.Ok? <==> OrderShell(n, prior, functionId, structureId, invoiceId, name).Ok?
    ensures r.Ok? ==> r == OrderShell(n, prior, functionId, structureId, invoiceId, name)
  {
    var order := StripEbom(Del(prior, InspectTree.FLAT));
    order :- With(n, order, "function", functionId);
    order :- With(n, order, "structure", structureId);
    order :- With(n, order, "invoice", invoiceId);
    if name.Some? {
      order := Set(order, "structure_filepath", name.value);
    }
    order := Set(order, "endpoint", Str(n.endpoint));
    return Ok(order);
  }

  /** `_order_request_from_prior`: the Invoice is put, then the edited Order. */
  method OrderRequestFromPrior(store: CasHttpStore, n: Node, prior: Dict, functionId: string, structureId: string,
                               dataId: string,
                               name: Option<Json>) returns (r: Result<Minted>)
    requires IsSha(n.sha) && store.sha == n.sha
    modifies store
    ensures Performed(n.sha, old(store.blobs), store.blobs,
                      MintOrder(n, prior, functionId, structureId, dataId, name), r)
  {
    var invoice :- With(n, [], "data", dataId);
    r := PutInvoiceAndOrder(store, n, prior, functionId, structureId, invoice, name);
    MintIs(n, prior, functionId, structureId, dataId, invoice, name);
  }

  /** The puts of a mint, given its Invoice. */
  ghost function InvoiceAndOrder(n: Node, prior: Dict, functionId: string, structureId: string, invoice: Dict,
                                 name: Option<Json>): Result<Put<Minted>>
    requires IsSha(n.sha)
  {
    match OrderShell(n, prior, functionId, structureId, JsonId(n, Obj(invoice)), name)
    case Err(e) => Err(e)
    case Ok(order) => Ok(Put([n.dumps(Obj(invoice)), n.dumps(Obj(order))],
                             Minted(invoice, order, JsonId(n, Obj(order)))))
  }

  lemma MintIs(n: Node, prior: Dict, functionId: string, structureId: string, dataId: string, invoice: Dict,
               name: Option<Json>)
    requires IsSha(n.sha) && With(n, [], "data", dataId) == Ok(invoice)
    ensures var m := MintOrder(n, prior, functionId, structureId, dataId, name);
      var i := InvoiceAndOrder(n, prior, functionId, structureId, invoice, name);
      m.Ok? == i.Ok? && (m.Ok? ==> m == i)
  {
  }

  method PutInvoiceAndOrder(store: CasHttpStore, n: Node, prior: Dict, functionId: string, structureId: string,
                            invoice: Dict,
                            name: Option<Json>) returns (r: Result<Minted>)
    requires IsSha(n.sha) && store.sha == n.sha
    modifies store
    ensures Performed(n.sha, old(store.blobs), store.blobs,
                      InvoiceAndOrder(n, prior, functionId, structureId, invoice, name), r)
  {
    ghost var start := store.blobs;
    ghost var spec := InvoiceAndOrder(n, prior, functionId, structureId, invoice, name);
    var invoiceId := PutJson(store, n, Obj(invoice));
    if invoiceId.Err? {
      PartFails(n.sha, start, start, store.blobs, Ok(Put([n.dumps(Obj(invoice))], JsonId(n, Obj(invoice)))),
                invoiceId, spec);
      return Err(invoiceId.message);
    }
    var shell := EditShell(n, prior, functionId, structureId, invoiceId.value, name);
    if shell.Err? {
      return Err(shell.message);
    }
    var order := shell.value;
    ghost var middle := store.blobs;
    var orderId := PutJson(store, n, Obj(order));
    if orderId.Err? {
      PartFails(n.sha, start, middle, store.blobs, Ok(Put([n.dumps(Obj(order))], JsonId(n, Obj(order)))), orderId,
                spec);
      return Err(orderId.message);
    }
    StillHolds(n.sha, middle, store.blobs, [n.dumps(Obj(invoice))]);
    HoldsConcat(n.sha, store.blobs, [n.dumps(Obj(invoice))], [n.dumps(Obj(order))]);
    assert [n.dumps(Obj(invoice))] + [n.dumps(Obj(order))] == [n.dumps(Obj(invoice)), n.dumps(Obj(order))];
    return Ok(Minted(invoice, order, orderId.value));
  }

  // --- the operations --------------------------------------------------------------------------------

  /** The Structure half, put when it is new. */
  method StructureHalf(store: CasHttpStore, n: Node, order: Dict, s: StructureArgs)
    returns (r: Result<(string, Option<Json>)>)
    requires IsSha(n.sha) && store.sha == n.sha
    modifies store
    ensures Performed(n.sha, old(store.blobs), store.blobs, NewStructure(n, order, s), r)
  {
    var linked := LinkedStructure(n, order, s);
    if linked.Err? {
      return Err(linked.message);
    }
    var (pairing, name) := linked.value;
    var id := PutJson(store, n, Obj(pairing));
    if id.Err? {
      return Err(id.message);
    }
    return Ok((id.value, name));
  }

  /** The Function half, rebuilt and put. */
  method FunctionHalf(store: CasHttpStore, n: Node, order: Dict, f: FunctionArgs) returns (r: Result<string>)
    requires IsSha(n.sha) && store.sha == n.sha
    modifies store
    ensures Performed(n.sha, old(store.blobs), store.blobs, RebuiltFunction(n, order, f), r)
  {
    var prev := NestedDoc(order, "function");
    if prev.Err? {
      return Err(prev.message);
    }
    r := RebuildAndPut(store, n, prev.value, f);
  }

  /** The last part of every link operation. */
  method Finish(store: CasHttpStore, n: Node, order: Dict, ghost start: Blobs,
                ghost f: Result<Put<string>>, functionId: string, ghost s: Result<Put<(string, Option<Json>)>>,
                structureId: string,
                name: Option<Json>, data: Result<string>) returns (r: Result<Minted>)
    requires IsSha(n.sha) && store.sha == n.sha && Grew(n.sha, start, store.blobs)
    requires f.Ok? && f.value.value == functionId && HoldsPuts(n.sha, store.blobs, f.value.puts)
    requires s.Ok? && s.value.value == (structureId, name) && HoldsPuts(n.sha, store.blobs, s.value.puts)
    modifies store
    ensures Performed(n.sha, start, store.blobs, Assemble(n, order, f, s, data), r)
  {
    if data.Err? {
      return Err(data.message);
    }
    ghost var middle := store.blobs;
    r := OrderRequestFromPrior(store, n, order, functionId, structureId, data.value, name);
    HoldsConcat(n.sha, middle, f.value.puts, s.value.puts);
    PerformedThen(n.sha, start, middle, store.blobs, f.value.puts + s.value.puts,
                  MintOrder(n, order, functionId, structureId, data.value, name), r);
    AssembleIs(n, order, f.value, s.value, data.value);
  }

  lemma AssembleIs(n: Node, order: Dict, f: Put<string>, s: Put<(string, Option<Json>)>, data: string)
    requires IsSha(n.sha)
    ensures var a := Assemble(n, order, Ok(f), Ok(s), Ok(data));
      var t := Then(f.puts + s.puts, MintOrder(n, order, f.value, s.value.0, data, s.value.1));
      a.Ok? == t.Ok? && (a.Ok? ==> a == t)
  {
  }

  /** A half that fails makes the whole fail, or is a collision. */
  lemma AssembleHas(n: Node, order: Dict, f: Result<Put<string>>, s: Result<Put<(string, Option<Json>)>>,
                    data: Result<string>)
    requires IsSha(n.sha)
    ensures var a := Assemble(n, order, f, s, data);
      a.Ok? ==> f.Ok? && s.Ok? && (forall b :: b in f.value.puts || b in s.value.puts ==> b in a.value.puts)
  {
  }

  /** `linkProcess` on the prior Invoice and Order. */
  method LinkProcessStep(store: CasHttpStore, n: Node, invoice: Dict, order: Dict, f: FunctionArgs)
    returns (r: Result<Minted>)
    requires IsSha(n.sha) && store.sha == n.sha
    modifies store
    ensures Performed(n.sha, old(store.blobs), store.blobs, ProcessStep(n, invoice, order, f), r)
  {
    ghost var start := store.blobs;
    ghost var half, carried := RebuiltFunction(n, order, f), CarriedStructure(n, order);
    var data := Require(n, invoice, "data");
    AssembleHas(n, order, half, carried, data);
    var functionId := FunctionHalf(store, n, order, f);
    if functionId.Err? {
      PartFails(n.sha, start, start, store.blobs, half, functionId, ProcessStep(n, invoice, order, f));
      return Err(functionId.message);
    }
    var structureId := Require(n, order, "structure");
    if structureId.Err? {
      return Err(structureId.message);
    }
    r := Finish(store, n, order, start, half, functionId.value, carried, structureId.value, None, data);
  }

  /** `linkStructure` on the prior Invoice and Order. */
  method LinkStructureStep(store: CasHttpStore, n: Node, invoice: Dict, order: Dict, s: StructureArgs)
    returns (r: Result<Minted>)
    requires IsSha(n.sha) && store.sha == n.sha
    modifies store
    ensures Performed(n.sha, old(store.blobs), store.blobs, StructureStep(n, invoice, order, s), r)
  {
    ghost var start := store.blobs;
    ghost var half, carried := NewStructure(n, order, s), CarriedFunction(n, order);
    var data := Require(n, invoice, "data");
    AssembleHas(n, order, carried, half, data);
    var structure := StructureHalf(store, n, order, s);
    if structure.Err? {
      PartFails(n.sha, start, start, store.blobs, half, structure, StructureStep(n, invoice, order, s));
      return Err(structure.message);
    }
    var functionId := Require(n, order, "function");
    if functionId.Err? {
      return Err(functionId.message);
    }
    r := Finish(store, n, order, start, carried, functionId.value, half, structure.value.0, structure.value.1, data);
  }

  method OrderFunctionHalf(store: CasHttpStore, n: Node, order: Dict, f: FunctionArgs) returns (r: Result<string>)
    requires IsSha(n.sha) && store.sha == n.sha
    modifies store
    ensures Performed(n.sha, old(store.blobs), store.blobs, OrderFunction(n, order, f), r)
  {
    r := Require(n, order, "function");
    if r.Ok? && AsksFunction(f) {
      r := FunctionHalf(store, n, order, f);
    }
  }

  method OrderStructureHalf(store: CasHttpStore, n: Node, order: Dict, s: StructureArgs)
    returns (r: Result<(string, Option<Json>)>)
    requires IsSha(n.sha) && store.sha == n.sha
    modifies store
    ensures Performed(n.sha, old(store.blobs), store.blobs, OrderStructure(n, order, s), r)
  {
    var prior := Require(n, order, "structure");
    if prior.Err? {
      return Err(prior.message);
    }
    if AsksStructure(s) {
      r := StructureHalf(store, n, order, s);
    } else {
      r := Ok((prior.value, None));
    }
  }

  /** `linkOrder` on the prior Invoice and Order. */
  method LinkOrderStep(store: CasHttpStore, n: Node, invoice: Dict, order: Dict, f: FunctionArgs, s: StructureArgs)
    returns (r: Result<Minted>)
    requires IsSha(n.sha) && store.sha == n.sha
    modifies store
    ensures Performed(n.sha, old(store.blobs), store.blobs, OrderStep(n, invoice, order, f, s), r)
  {
    ghost var start := store.blobs;
    ghost var fn, st := OrderFunction(n, order, f), OrderStructure(n, order, s);
    var data := Require(n, invoice, "data");
    AssembleHas(n, order, fn, st, data);
    var functionId := OrderFunctionHalf(store, n, order, f);
    if functionId.Err? {
      PartFails(n.sha, start, start, store.blobs, fn, functionId, OrderStep(n, invoice, order, f, s));
      return Err(functionId.message);
    }
    ghost var middle := store.blobs;
    var structure := OrderStructureHalf(store, n, order, s);
    if structure.Err? {
      PartFails(n.sha, start, middle, store.blobs, st, structure, OrderStep(n, invoice, order, f, s));
      return Err(structure.message);
    }
    StillHolds(n.sha, middle, store.blobs, fn.value.puts);
    r := Finish(store, n, order, start, fn, functionId.value, st, structure.value.0, structure.value.1, data);
  }

  /** A link operation on a finished run: it does what the specification says, and everything the specification puts is
      in the store, so that the minted Order can be run. */
  method LinkAndPut(store: CasHttpStore, n: Node, bom: Dict, link: Link) returns (r: Result<Minted>)
    requires IsSha(n.sha) && store.sha == n.sha
    modifies store
    ensures Performed(n.sha, old(store.blobs), store.blobs, Linked(n, bom, link), r)
  {
    if link.ByOrder? && !AsksFunction(link.f) && !AsksStructure(link.s) {
      return Err("linkOrder requires a change");
    }
    var prior := PriorRun(n, bom);
    if prior.Err? {
      return Err(prior.message);
    }
    var (invoice, order) := prior.value;
    match link
    case ByProcess(f) => r := LinkProcessStep(store, n, invoice, order, f);
    case ByStructure(s) => r := LinkStructureStep(store, n, invoice, order, s);
    case ByOrder(f, s) => r := LinkOrderStep(store, n, invoice, order, f, s);
  }

  // --- the first Order -------------------------------------------------------------------------------

  /** The last two puts of a creation. */
  ghost function NewMintPut(n: Node, q: OrderArgs, pairing: Dict, fn: Dict): Result<Put<Minted>>
    requires IsSha(n.sha)
  {
    match NewMint(n, q, pairing, fn)
    case Err(e) => Err(e)
    case Ok(m) => Ok(Put([n.dumps(Obj(m.invoice)), n.dumps(Obj(m.order))], m))
  }

  method PutNewMint(store: CasHttpStore, n: Node, q: OrderArgs, ghost pairing: Dict, structureId: string,
                    ghost fn: Dict, functionId: string) returns (r: Result<Minted>)
    requires IsSha(n.sha) && store.sha == n.sha
    requires structureId == JsonId(n, Obj(pairing)) && functionId == JsonId(n, Obj(fn))
    modifies store
    ensures Performed(n.sha, old(store.blobs), store.blobs, NewMintPut(n, q, pairing, fn), r)
  {
    ghost var start := store.blobs;
    ghost var spec := NewMintPut(n, q, pairing, fn);
    var invoice :- With(n, [], "data", q.dataId);
    var invoiceId := PutJson(store, n, Obj(invoice));
    if invoiceId.Err? {
      PartFails(n.sha, start, start, store.blobs, Ok(Put([n.dumps(Obj(invoice))], JsonId(n, Obj(invoice)))),
                invoiceId, spec);
      return Err(invoiceId.message);
    }
    var order := NewShell(n, q);
    order :- With(n, order, "function", functionId);
    order :- With(n, order, "structure", structureId);
    order :- With(n, order, "invoice", invoiceId.value);
    ghost var middle := store.blobs;
    var orderId := PutJson(store, n, Obj(order));
    if orderId.Err? {
      PartFails(n.sha, start, middle, store.blobs, Ok(Put([n.dumps(Obj(order))], JsonId(n, Obj(order)))), orderId,
                spec);
      return Err(orderId.message);
    }
    StillHolds(n.sha, middle, store.blobs, [n.dumps(Obj(invoice))]);
    HoldsConcat(n.sha, store.blobs, [n.dumps(Obj(invoice))], [n.dumps(Obj(order))]);
    assert [n.dumps(Obj(invoice))] + [n.dumps(Obj(order))] == [n.dumps(Obj(invoice)), n.dumps(Obj(order))];
    return Ok(Minted(invoice, order, orderId.value));
  }

  /** Everything after the Structure pairing was put. */
  ghost function AfterPairing(n: Node, q: OrderArgs, pairing: Dict): Result<Put<Minted>>
    requires IsSha(n.sha)
  {
    match CreatedParts(n, q)
    case Err(e) => Err(e)
    case Ok(parts) => Then(parts.puts, AfterParts(n, q, pairing, parts.value))
  }

  ghost function AfterParts(n: Node, q: OrderArgs, pairing: Dict, p: FunctionParts): Result<Put<Minted>>
    requires IsSha(n.sha)
  {
    match PairFunction(n, p)
    case Err(e) => Err(e)
    case Ok(fn) => Then(FunctionPuts(n, p, fn), NewMintPut(n, q, pairing, fn))
  }

  method PutAfterParts(store: CasHttpStore, n: Node, q: OrderArgs, ghost pairing: Dict, structureId: string,
                       p: FunctionParts) returns (r: Result<Minted>)
    requires IsSha(n.sha) && store.sha == n.sha && structureId == JsonId(n, Obj(pairing))
    modifies store
    ensures Performed(n.sha, old(store.blobs), store.blobs, AfterParts(n, q, pairing, p), r)
  {
    ghost var start := store.blobs;
    var functionId := PutFunction(store, n, p);
    if functionId.Err? {
      PartFails(n.sha, start, start, store.blobs, FunctionPut(n, p), functionId, AfterParts(n, q, pairing, p));
      return Err(functionId.message);
    }
    ghost var middle, fn := store.blobs, PairFunction(n, p).value;
    r := PutNewMint(store, n, q, pairing, structureId, fn, functionId.value);
    PerformedThen(n.sha, start, middle, store.blobs, FunctionPuts(n, p, fn), NewMintPut(n, q, pairing, fn), r);
  }

  method PutAfterPairing(store: CasHttpStore, n: Node, q: OrderArgs, ghost pairing: Dict, structureId: string)
    returns (r: Result<Minted>)
    requires IsSha(n.sha) && store.sha == n.sha && structureId == JsonId(n, Obj(pairing))
    modifies store
    ensures Performed(n.sha, old(store.blobs), store.blobs, AfterPairing(n, q, pairing), r)
  {
    ghost var start := store.blobs;
    var parts := FillAndPut(store, n, Callables(q), q.processSource, q.infraSource, [], []);
    if parts.Err? {
      PartFails(n.sha, start, start, store.blobs, CreatedParts(n, q), parts, AfterPairing(n, q, pairing));
      return Err(parts.message);
    }
    ghost var middle := store.blobs;
    r := PutAfterParts(store, n, q, pairing, structureId, parts.value);
    PerformedThen(n.sha, start, middle, store.blobs, CreatedParts(n, q).value.puts,
                  AfterParts(n, q, pairing, parts.value), r);
  }

  lemma CreateIs(n: Node, q: OrderArgs, pairing: Dict)
    requires IsSha(n.sha) && CreatedPairing(n, q) == Ok(pairing)
    ensures var c, t := CreateOrder(n, q), Then([n.dumps(Obj(pairing))], AfterPairing(n, q, pairing));
      c.Ok? == t.Ok? && (c.Ok? ==> c == t)
  {
    if CreateOrder(n, q).Ok? {
      var parts, fn := CreatedParts(n, q).value, CreatedFunction(n, q);
      var last := NewMintPut(n, q, pairing, fn).value.puts;
      PutsAssociate([n.dumps(Obj(pairing))], parts.puts, FunctionPuts(n, parts.value, fn), last);
    }
  }

  lemma PutsAssociate(a: seq<Bytes>, b: seq<Bytes>, c: seq<Bytes>, d: seq<Bytes>)
    ensures a + (b + (c + d)) == a + b + c + d
  {
  }

  /** `create_order_request`: the pairing, the leaves, the Function, the Invoice and the Order are put one after
      another. */
  method CreateAndPut(store: CasHttpStore, n: Node, q: OrderArgs) returns (r: Result<Minted>)
    requires IsSha(n.sha) && store.sha == n.sha
    modifies store
    ensures Performed(n.sha, old(store.blobs), store.blobs, CreateOrder(n, q), r)
  {
    ghost var start := store.blobs;
    var pairing := CreatedPairing(n, q);
    if pairing.Err? {
      return Err(pairing.message);
    }
    CreateIs(n, q, pairing.value);
    var structureId := PutJson(store, n, Obj(pairing.value));
    if structureId.Err? {
      PartFails(n.sha, start, start, store.blobs,
                Ok(Put([n.dumps(Obj(pairing.value))], JsonId(n, Obj(pairing.value)))), structureId, CreateOrder(n, q));
      return Err(structureId.message);
    }
    ghost var middle := store.blobs;
    r := PutAfterPairing(store, n, q, pairing.value, structureId.value);
    PerformedThen(n.sha, start, middle, store.blobs, [n.dumps(Obj(pairing.value))],
                  AfterPairing(n, q, pairing.value), r);
  }
}
