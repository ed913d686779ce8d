/** When the Function id moves along a chain of runs and link steps (cats/network/order.py), and what the pairing
    assertion of cats/network/registry/lineage.py then says. */
module FunctionChain {
  import opened AddressStore
  import opened Cas
  import opened ContentRef
  import opened Creation
  import opened FunctionChange
  import opened FunctionRebuild
  import opened Json
  import opened Lineage
  import opened LineageChain
  import opened Manifest
  import opened Order
  import opened Wrappers

  /** The stored Function of the Order that was run. */
  ghost function RunFunction(t: Turn): Option<Dict>
    requires StoredRun(t.n.mesh, t.bom).Some?
  {
    StoredDoc(t.n.mesh, RunOrder(t), "function")
  }

  /** The turn rebuilds a Function whose references can be carried. */
  ghost predicate Rebuilds(t: Turn)
    requires StoredRun(t.n.mesh, t.bom).Some?
  {
    !CarriesFunction(t.link) && RunFunction(t).Some? && StableFunction(t.n, RunFunction(t).value, t.link.f)
  }

  /** Every replacement of the turn binds to the id its slot already has. */
  ghost predicate Idle(t: Turn)
    requires IsSha(t.n.sha) && StoredRun(t.n.mesh, t.bom).Some?
  {
    !CarriesFunction(t.link) && RunFunction(t).Some? && NothingNew(t.n, RunFunction(t).value, t.link.f)
  }

  // --- one turn from a Function with a known origin --------------------------------------------------

  /** No other bytes have the digest of the document or of its two parts. */
  ghost predicate UnforgedFunction(sha: Sha, dumps: Json -> Bytes, r: Recipe, doc: Dict) {
    NoCollision(sha, dumps(Obj(doc))) && NoCollision(sha, dumps(Obj(r.parts.process)))
      && NoCollision(sha, dumps(Obj(r.parts.infra)))
  }

  /** The Order that was run refers to the Function document of this recipe. */
  ghost predicate Refers(t: Turn, r: Recipe, doc: Dict)
    requires IsSha(t.n.sha) && StoredRun(t.n.mesh, t.bom).Some?
  {
    && Makes(r, doc) && SameHashing(t.n, r.n) && UnforgedFunction(t.n.sha, t.n.dumps, r, doc)
    && RefId(RunOrder(t), "function", NO_LOCATORS) == Ok(Some(JsonId(t.n, Obj(doc))))
  }

  /** A turn whose Order refers to a document by its id starts from that document. */
  lemma ReadsMade(t: Turn, loads: Loads, doc: Dict)
    requires GoodTurn(t, loads) && Written(t.n.mesh, RunOrder(t)) && !CarriesFunction(t.link)
    requires NoCollision(t.n.sha, t.n.dumps(Obj(doc)))
    requires RefId(RunOrder(t), "function", NO_LOCATORS) == Ok(Some(JsonId(t.n, Obj(doc))))
    ensures RunFunction(t) == Some(doc)
  {
    JsonIdStable(t.n, Obj(doc));
    WrittenIsGood(t);
    GoodRun(t, loads);
    var fn := RebuildStep(t.n, t.bom, t.link, NO_LOCATORS);
    ReadIsWritten(t.n, loads, RunOrder(t), "function", Obj(doc));
  }

  /** And from its parts, so that all its references can be carried. */
  lemma StartsFromMade(t: Turn, loads: Loads, r: Recipe, doc: Dict)
    requires GoodTurn(t, loads) && Written(t.n.mesh, RunOrder(t)) && !CarriesFunction(t.link) && Refers(t, r, doc)
    ensures RunFunction(t) == Some(doc) && Rebuilds(t)
  {
    ReadsMade(t, loads, doc);
    WrittenIsGood(t);
    GoodRun(t, loads);
    var fn := RebuildStep(t.n, t.bom, t.link, NO_LOCATORS);
    RebuildPuts(t.n, fn, t.link.f);
    PartsAre(t.n, fn, t.link.f);
    PartsReadBack(t.n, loads, r.n, r.parts);
    MadeIsStable(t.n, doc, t.link.f, r);
  }

  /** A rebuild with something new moves the Function, wherever the prior Function came from. */
  lemma RebuildMoves(t: Turn, loads: Loads)
    requires GoodTurn(t, loads) && Written(t.n.mesh, RunOrder(t)) && Rebuilds(t) && !Idle(t)
    ensures Moved(t, "function")
  {
    WrittenIsGood(t);
    GoodRun(t, loads);
    FunctionMoves(t.n, loads, t.bom, t.link, RunFunction(t).value, NO_LOCATORS);
  }

  /** The exact condition for one turn: the Function id stays if and only if every replacement binds to the id its slot
      already has and the base URL is the one the Function was written over. */
  lemma TurnMovedIff(t: Turn, loads: Loads, r: Recipe, doc: Dict)
    requires GoodTurn(t, loads) && Written(t.n.mesh, RunOrder(t)) && !CarriesFunction(t.link) && Refers(t, r, doc)
    ensures Moved(t, "function") <==> !(Idle(t) && SameBase(t.n, r.n))
  {
    StartsFromMade(t, loads, r, doc);
    WrittenIsGood(t);
    GoodRun(t, loads);
    if !Idle(t) {
      RebuildMoves(t, loads);
    } else if SameBase(t.n, r.n) {
      FunctionStays(t.n, loads, t.bom, t.link, doc, r, NO_LOCATORS);
    } else {
      BaseMoves(t.n, loads, t.bom, t.link, doc, r, NO_LOCATORS);
    }
  }

  // --- where a Function comes from -------------------------------------------------------------------

  /** The run executed an Order that was created, not linked. */
  ghost predicate RunsCreated(t: Turn, n: Node, q: OrderArgs)
    requires StoredRun(t.n.mesh, t.bom).Some?
  {
    && Ready(n) && CanonicalArgs(q) && CreateOrder(n, q).Ok? && Unforged(n.sha, CreateOrder(n, q).value.puts)
    && SameHashing(t.n, n) && CommittingRef(t.n.mesh, OutputInvoice(t), "order")
    && RefId(OutputInvoice(t), "order", t.n.mesh.locators) == Ok(Some(CreateOrder(n, q).value.value.orderId))
  }

  lemma UnforgedIn(sha: Sha, puts: seq<Bytes>, b: Bytes)
    requires Unforged(sha, puts) && b in puts
    ensures NoCollision(sha, b)
  {
  }

  /** What was run is the very Order that was created. */
  lemma RanWhatWasCreated(t: Turn, loads: Loads, n: Node, q: OrderArgs)
    requires GoodTurn(t, loads) && RunsCreated(t, n, q)
    ensures RunOrder(t) == CreateOrder(n, q).value.value.order && Written(t.n.mesh, RunOrder(t))
    ensures Refers(t, CreatedRecipe(n, q), CreatedFunction(n, q))
  {
    var puts, order := CreateOrder(n, q).value.puts, CreateOrder(n, q).value.value.order;
    var parts, fn := CreatedRecipe(n, q).parts, CreatedFunction(n, q);
    CreatedReads(n, q, t.n.mesh, NO_LOCATORS);
    CreatedPuts(n, q);
    UnforgedIn(n.sha, puts, n.dumps(Obj(order)));
    UnforgedIn(n.sha, puts, n.dumps(Obj(fn)));
    UnforgedIn(n.sha, puts, n.dumps(Obj(parts.process)));
    UnforgedIn(n.sha, puts, n.dumps(Obj(parts.infra)));
    assert JsonId(t.n, Obj(order)) == JsonId(n, Obj(order)) && JsonId(t.n, Obj(fn)) == JsonId(n, Obj(fn));
    ReadIsWritten(t.n, loads, OutputInvoice(t), "order", Obj(order));
    CreatedMakes(n, q);
  }

  /** A turn that rebuilds mints a reference to the document it makes. */
  lemma MakesFunction(t: Turn, loads: Loads) returns (r: Recipe, doc: Dict)
    requires GoodTurn(t, loads) && GoodOrder(t) && Rebuilds(t)
    ensures Makes(r, doc) && r.n == t.n && UnforgedFunction(t.n.sha, t.n.dumps, r, doc)
    ensures RefId(Next(t).order, "function", NO_LOCATORS) == Ok(Some(JsonId(t.n, Obj(doc))))
  {
    GoodRun(t, loads);
    var fn := RebuildStep(t.n, t.bom, t.link, NO_LOCATORS);
    RebuildPuts(t.n, fn, t.link.f);
    RebuildLaw(t.n, fn, t.link.f, NO_LOCATORS);
    r := RebuildRecipe(t.n, fn, t.link.f);
    doc := PairFunction(t.n, r.parts).value;
    var puts := RebuildFunction(t.n, fn, t.link.f).value.puts;
    UnforgedSubset(t.n.sha, Linked(t.n, t.bom, t.link).value.puts, puts);
    UnforgedIn(t.n.sha, puts, t.n.dumps(Obj(doc)));
    UnforgedIn(t.n.sha, puts, t.n.dumps(Obj(r.parts.process)));
    UnforgedIn(t.n.sha, puts, t.n.dumps(Obj(r.parts.infra)));
  }

  /** A turn that carries the Function mints the same reference. */
  lemma CarriesOn(t: Turn, loads: Loads)
    requires GoodTurn(t, loads) && Written(t.n.mesh, RunOrder(t)) && CarriesFunction(t.link)
    ensures RefId(Next(t).order, "function", NO_LOCATORS) == RefId(RunOrder(t), "function", NO_LOCATORS)
  {
    StructureModes(t, loads);
  }

  /** The recipe of the Function the next run refers to. */
  lemma NextRefers(t: Turn, later: Turn, loads: Loads, r: Recipe, doc: Dict) returns (r': Recipe, doc': Dict)
    requires GoodTurn(t, loads) && GoodTurn(later, loads) && Executes(t, later) && Written(t.n.mesh, RunOrder(t))
    requires Refers(t, r, doc)
    ensures Refers(later, r', doc') && r'.n == (if CarriesFunction(t.link) then r.n else t.n)
  {
    RanWhatWasMinted(t, later, loads);
    if CarriesFunction(t.link) {
      CarriesOn(t, loads);
      r', doc' := r, doc;
      assert JsonId(later.n, Obj(doc)) == JsonId(t.n, Obj(doc));
    } else {
      StartsFromMade(t, loads, r, doc);
      WrittenIsGood(t);
      r', doc' := RebuiltRefers(t, later, loads);
    }
  }

  // --- along a chain ---------------------------------------------------------------------------------

  /** Where the Functions of a chain come from: the first run executed a created Order, or some turn rebuilt one. */
  datatype Origin = Created(n: Node, q: OrderArgs) | Rebuilt(j: nat)

  ghost predicate Originates(ts: seq<Turn>, o: Origin)
    requires forall i :: 0 <= i < |ts| ==> StoredRun(ts[i].n.mesh, ts[i].bom).Some?
  {
    match o
    case Created(n, q) => |ts| > 0 && RunsCreated(ts[0], n, q)
    case Rebuilt(j) => j < |ts| && Rebuilds(ts[j])
  }

  /** The first turn after the origin. */
  function First(o: Origin): nat {
    match o case Created(_, _) => 0 case Rebuilt(j) => j + 1
  }

  /** The node that wrote the Function which turn `i` starts from. */
  function Maker(ts: seq<Turn>, o: Origin, i: nat): Node
    requires First(o) <= i < |ts|
    decreases i
  {
    if i == First(o) then (match o case Created(n, _) => n case Rebuilt(j) => ts[j].n)
    else if CarriesFunction(ts[i - 1].link) then Maker(ts, o, i - 1)
    else ts[i - 1].n
  }

  lemma OriginRefers(ts: seq<Turn>, loads: Loads, o: Origin) returns (r: Recipe, doc: Dict)
    requires Chain(ts, loads) && Originates(ts, o) && First(o) < |ts|
    ensures Refers(ts[First(o)], r, doc) && r.n == Maker(ts, o, First(o))
    ensures Written(ts[First(o)].n.mesh, RunOrder(ts[First(o)]))
  {
    match o
    case Created(n, q) =>
      RanWhatWasCreated(ts[0], loads, n, q);
      r, doc := CreatedRecipe(n, q), CreatedFunction(n, q);
    case Rebuilt(j) =>
      ChainGood(ts, loads, j);
      r, doc := RebuiltRefers(ts[j], ts[j + 1], loads);
      ChainGood(ts, loads, j + 1);
  }

  /** The run after a rebuild refers to the document that was made. */
  lemma RebuiltRefers(t: Turn, later: Turn, loads: Loads) returns (r: Recipe, doc: Dict)
    requires GoodTurn(t, loads) && GoodTurn(later, loads) && Executes(t, later) && GoodOrder(t) && Rebuilds(t)
    ensures Refers(later, r, doc) && r.n == t.n
  {
    r, doc := MakesFunction(t, loads);
    RanWhatWasMinted(t, later, loads);
    assert JsonId(later.n, Obj(doc)) == JsonId(t.n, Obj(doc));
  }

  /** The invariant: from the origin on, every Order that is run refers to a Function whose making is known. */
  lemma {:induction false} KnownOrigin(ts: seq<Turn>, loads: Loads, o: Origin, i: nat) returns (r: Recipe, doc: Dict)
    requires Chain(ts, loads) && Originates(ts, o) && First(o) <= i < |ts|
    ensures Refers(ts[i], r, doc) && r.n == Maker(ts, o, i) && Written(ts[i].n.mesh, RunOrder(ts[i]))
    decreases i
  {
    if i == First(o) {
      r, doc := OriginRefers(ts, loads, o);
    } else {
      r, doc := KnownOrigin(ts, loads, o, i - 1);
      r, doc := NextKnown(ts, loads, i, r, doc);
    }
  }

  lemma NextKnown(ts: seq<Turn>, loads: Loads, i: nat, r: Recipe, doc: Dict) returns (r': Recipe, doc': Dict)
    requires Chain(ts, loads) && 0 < i < |ts| && Written(ts[i - 1].n.mesh, RunOrder(ts[i - 1]))
    requires Refers(ts[i - 1], r, doc)
    ensures Refers(ts[i], r', doc') && r'.n == (if CarriesFunction(ts[i - 1].link) then r.n else ts[i - 1].n)
    ensures Written(ts[i].n.mesh, RunOrder(ts[i]))
  {
    r', doc' := NextRefers(ts[i - 1], ts[i], loads, r, doc);
    ChainGood(ts, loads, i);
  }

  /** From the origin on, a turn that rebuilds the Function leaves its id alone if and only if every replacement binds
      to
      the id its slot already has and the base URL is the one that Function was written over. */
  lemma FunctionMovedIff(ts: seq<Turn>, loads: Loads, o: Origin, i: nat)
    requires Chain(ts, loads) && Originates(ts, o) && First(o) <= i < |ts| && !CarriesFunction(ts[i].link)
    ensures Moved(ts[i], "function") <==> !(Idle(ts[i]) && SameBase(ts[i].n, Maker(ts, o, i)))
  {
    var r, doc := KnownOrigin(ts, loads, o, i);
    TurnMovedIff(ts[i], loads, r, doc);
  }

  /** Every Order but the first is a minted one, so a rebuild with something new moves the Function there whatever the
      first Order was. */
  lemma NewMoves(ts: seq<Turn>, loads: Loads, i: nat)
    requires Chain(ts, loads) && 0 < i < |ts| && Rebuilds(ts[i]) && !Idle(ts[i])
    ensures Moved(ts[i], "function")
  {
    ChainGood(ts, loads, i);
    RebuildMoves(ts[i], loads);
  }

  /** So the assertion accepts (mutated, carried) for such a turn if and only if something is new or the base URL is. */
  lemma FunctionModes(ts: seq<Turn>, loads: Loads, o: Origin, i: nat)
    requires Chain(ts, loads) && Originates(ts, o) && First(o) <= i < |ts|
    requires !CarriesFunction(ts[i].link) && CarriesStructure(ts[i].link)
    ensures PairingLineage(RunOrder(ts[i]), Next(ts[i]).order, MutatedMode, CarriedMode)
      <==> !(Idle(ts[i]) && SameBase(ts[i].n, Maker(ts, o, i)))
  {
    var r, doc := KnownOrigin(ts, loads, o, i);
    PairingIff(ts[i], loads, MutatedMode, CarriedMode);
    StructureModes(ts[i], loads);
    FunctionMovedIff(ts, loads, o, i);
  }

  /** `linkProcess` without replacements passes as (mutated, carried) only by moving to another base URL: over the same
      one it mints an Order with the Function it had, which the assertion refuses. */
  lemma NoReplacementsModes(ts: seq<Turn>, loads: Loads, o: Origin, i: nat)
    requires Chain(ts, loads) && Originates(ts, o) && First(o) <= i < |ts| && ts[i].link == ByProcess(NO_REPLACEMENTS)
    ensures Moved(ts[i], "function") <==> !SameBase(ts[i].n, Maker(ts, o, i))
    ensures PairingLineage(RunOrder(ts[i]), Next(ts[i]).order, MutatedMode, CarriedMode)
      <==> !SameBase(ts[i].n, Maker(ts, o, i))
  {
    var r, doc := KnownOrigin(ts, loads, o, i);
    WrittenIsGood(ts[i]);
    GoodRun(ts[i], loads);
    NoReplacementsIdle(ts[i], loads);
    FunctionMovedIff(ts, loads, o, i);
    FunctionModes(ts, loads, o, i);
  }

  lemma NoReplacementsIdle(t: Turn, loads: Loads)
    requires GoodTurn(t, loads) && StableRun(t.n.mesh, t.bom) && t.link == ByProcess(NO_REPLACEMENTS)
    ensures Idle(t)
  {
    var fn := RebuildStep(t.n, t.bom, t.link, NO_LOCATORS);
    RebuildPuts(t.n, fn, NO_REPLACEMENTS);
    NoReplacementsNothingNew(t.n, fn);
    assert RunFunction(t) == Some(fn) && t.link.f == NO_REPLACEMENTS;
  }
}
