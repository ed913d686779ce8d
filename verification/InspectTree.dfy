/** Inspect trees: documents with their referenced documents nested under `flat`
    (`_flatten_keep_uris` and `flatten_bom` of cats/network/content_mesh.py). */
module InspectTree {
  import opened ContentRef
  import opened Json
  import opened Text
  import opened Wrappers

  /** Where references lead: `json.loads(self.cat(key))`, the locator index behind `ref_id`, and the allowlist of
      stems to nest, in order. */
  datatype Mesh = Mesh(cat: string -> Result<Json>, locators: Locators, stems: seq<string>)

  /** The allowlist of the source; the laws below hold for any. */
  const FLAT_STEM_ORDER: seq<string> :=
    ["order", "seed", "data_stages", "structure_as_executed", "runtime_sbom", "function_sbom", "structure_sbom",
     "input_data_sbom", "function", "structure", "invoice", "plant_as_executed", "infrastructure_as_executed",
     "object_store_as_executed", "log"]

  const FLAT: string := "flat"

  /** `ref_uri(obj, stem) or ref_id(obj, stem)`. */
  function RefKey(d: Dict, stem: string, m: Mesh): Result<Option<string>> {
    if RefUri(d, stem).Some? then Ok(RefUri(d, stem))
    else
      var id :- RefId(d, stem, m.locators);
      Ok(if id.Some? && id.value != [] then id else None)
  }

  /** A reference is read by its locator, trimmed, when it has one, else by its id. */
  lemma KeyIs(d: Dict, stem: string, text: string, m: Mesh)
    requires Get(d, UriField(stem)) == Some(Str(text))
    ensures Strip(text) != [] ==> RefKey(d, stem, m) == Ok(Some(Strip(text)))
    ensures Strip(text) == [] ==> RefKey(d, stem, m) == RefKey(Del(d, UriField(stem)), stem, m)
  {
    if Strip(text) == [] {
      FieldNames(stem, stem);
      GetDel(d, UriField(stem), UriField(stem));
      GetDel(d, UriField(stem), CidField(stem));
      GetDel(d, UriField(stem), "content_id");
    }
  }

  lemma KeyIsId(d: Dict, stem: string, id: string, m: Mesh)
    requires !Has(d, UriField(stem)) && id != []
    ensures RefKey(d, stem, m) == Ok(Some(id)) <==> RefId(d, stem, m.locators) == Ok(Some(id))
  {
    assert Get(d, UriField(stem)) == None;
  }

  /** `_flatten_keep_uris`. */
  function Inspect(d: Dict, depth: int, visited: set<string>, m: Mesh): Result<Dict>
    decreases Fuel(depth), 1, 0
  {
    if depth <= 0 then Ok(d)
    else
      var bag :- Bag(m.stems, d, depth, visited, m);
      Ok(if bag == [] then d else Set(d, FLAT, Obj(bag)))
  }

  /** What one stem puts into the bag. */
  function Nested(stem: string, d: Dict, depth: int, visited: set<string>, m: Mesh): Result<Option<Json>>
    requires depth > 0
    decreases Fuel(depth), 0, 0
  {
    var key :- RefKey(d, stem, m);
    if key.None? || key.value in visited then Ok(None)
    else
      var payload :- m.cat(key.value);
      match payload
      case Null => Ok(None)
      case Obj(inner) =>
        var out :- Inspect(inner, depth - 1, visited + {key.value}, m);
        Ok(Some(Obj(out)))
      case _ => Ok(Some(payload))
  }

  function Bag(stems: seq<string>, d: Dict, depth: int, visited: set<string>, m: Mesh): Result<Dict>
    requires depth > 0
    decreases Fuel(depth), 0, 1, |stems|
  {
    if stems == [] then Ok([])
    else
      var first :- Nested(stems[0], d, depth, visited, m);
      var rest :- Bag(stems[1..], d, depth, visited, m);
      Ok((if first.Some? then [Field(stems[0], first.value)] else []) + rest)
  }

  // --- the loop --------------------------------------------------------------------------------------

  ghost function After(bag: Dict, rest: Result<Dict>): Result<Dict> {
    match rest case Ok(d) => Ok(bag + d) case Err(e) => Err(e)
  }

  lemma AfterNothing(rest: Result<Dict>)
    ensures After([], rest) == rest
  {
    if rest.Ok? { assert [] + rest.value == rest.value; }
  }

  /** One turn of the loop over the stems. */
  lemma BagStep(stems: seq<string>, d: Dict, depth: int, visited: set<string>, m: Mesh, bag: Dict)
    requires depth > 0 && stems != []
    ensures match Nested(stems[0], d, depth, visited, m)
      case Err(_) => Bag(stems, d, depth, visited, m).Err?
      case Ok(None) => After(bag, Bag(stems, d, depth, visited, m)) == After(bag, Bag(stems[1..], d, depth, visited, m))
      case Ok(Some(v)) =>
        After(bag, Bag(stems, d, depth, visited, m))
             == After(bag + [Field(stems[0], v)], Bag(stems[1..], d, depth, visited, m))
  {
    var first, rest := Nested(stems[0], d, depth, visited, m), Bag(stems[1..], d, depth, visited, m);
    if first.Ok? && rest.Ok? {
      if first.value.Some? {
        assert bag + ([Field(stems[0], first.value.value)] + rest.value)
             == bag + [Field(stems[0], first.value.value)] + rest.value;
      } else {
        assert [] + rest.value == rest.value;
      }
    }
  }

  method InspectLoop(d: Dict, depth: int, visited: set<string>, m: Mesh) returns (r: Result<Dict>)
    ensures r.Ok? == Inspect(d, depth, visited, m).Ok? && (r.Ok? ==> r == Inspect(d, depth, visited, m))
    decreases Fuel(depth), 1
  {
    if depth <= 0 {
      return Ok(d);
    }
    var bag :- BagLoop(m.stems, d, depth, visited, m);
    return Ok(if bag == [] then d else Set(d, FLAT, Obj(bag)));
  }

  method BagLoop(stems: seq<string>, d: Dict, depth: int, visited: set<string>, m: Mesh) returns (r: Result<Dict>)
    requires depth > 0
    ensures r.Ok? == Bag(stems, d, depth, visited, m).Ok? && (r.Ok? ==> r == Bag(stems, d, depth, visited, m))
    decreases Fuel(depth), 0, 1
  {
    var bag: Dict := [];
    AfterNothing(Bag(stems, d, depth, visited, m));
    assert stems[0..] == stems;
    for i := 0 to |stems|
      invariant Bag(stems, d, depth, visited, m) == After(bag, Bag(stems[i..], d, depth, visited, m))
    {
      assert stems[i..][1..] == stems[i + 1..] && stems[i..][0] == stems[i];
      BagStep(stems[i..], d, depth, visited, m, bag);
      var nested := NestedLoop(stems[i], d, depth, visited, m);
      if nested.Err? {
        return Err(nested.message);
      }
      if nested.value.Some? {
        bag := bag + [Field(stems[i], nested.value.value)];
      }
    }
    assert bag + [] == bag;
    return Ok(bag);
  }

  method NestedLoop(stem: string, d: Dict, depth: int, visited: set<string>, m: Mesh) returns (r: Result<Option<Json>>)
    requires depth > 0
    ensures r.Ok? == Nested(stem, d, depth, visited, m).Ok? && (r.Ok? ==> r == Nested(stem, d, depth, visited, m))
    decreases Fuel(depth), 0, 0
  {
    var key :- RefKey(d, stem, m);
    if key.None? || key.value in visited {
      return Ok(None);
    }
    var payload :- m.cat(key.value);
    match payload
    case Null => return Ok(None);
    case Obj(inner) =>
      var out :- InspectLoop(inner, depth - 1, visited + {key.value}, m);
      return Ok(Some(Obj(out)));
    case _ => return Ok(Some(payload));
  }

  // --- erasure ---------------------------------------------------------------------------------------

  /** The node of an inspect tree reached by following `flat` bags. */
  function At(d: Dict, path: seq<string>): Option<Json>
    decreases |path|
  {
    if path == [] then Some(Obj(d))
    else
      var bag := Get(d, FLAT);
      if bag.None? || !bag.value.Obj? then None
      else
        var child := Get(bag.value.fields, path[0]);
        if |path| == 1 then child
        else if child.Some? && child.value.Obj? then At(child.value.fields, path[1..])
        else None
  }

  /** The stored document reached by following the references themselves. */
  function StoredAt(d: Dict, path: seq<string>, m: Mesh): Option<Json>
    decreases |path|
  {
    if path == [] then Some(Obj(d))
    else match RefKey(d, path[0], m)
      case Ok(Some(key)) =>
        (match m.cat(key)
         case Err(_) => None
         case Ok(j) =>
           if |path| == 1 then Some(j)
           else if j.Obj? then StoredAt(j.fields, path[1..], m) else None)
      case _ => None
  }

  /** A node without its bag. */
  function Erased(j: Json): Json {
    if j.Obj? then Obj(Del(j.fields, FLAT)) else j
  }

  ghost predicate NoFlat(j: Json) {
    j.Obj? ==> !Has(j.fields, FLAT)
  }

  /** No stored document has a `flat` key of its own. */
  ghost predicate StoredNoFlat(m: Mesh) {
    forall key :: m.cat(key).Ok? ==> NoFlat(m.cat(key).value)
  }

  lemma {:induction false} BagGet(stems: seq<string>, d: Dict, depth: int, visited: set<string>, m: Mesh, stem: string)
    requires depth > 0 && Bag(stems, d, depth, visited, m).Ok?
    ensures Get(Bag(stems, d, depth, visited, m).value, stem).Some? ==>
      Nested(stem, d, depth, visited, m) == Ok(Get(Bag(stems, d, depth, visited, m).value, stem))
    ensures stem in stems ==>
      Nested(stem, d, depth, visited, m) == Ok(Get(Bag(stems, d, depth, visited, m).value, stem))
  {
    if stems != [] {
      BagGet(stems[1..], d, depth, visited, m, stem);
      var first := Nested(stems[0], d, depth, visited, m).value;
      var rest := Bag(stems[1..], d, depth, visited, m).value;
      if first.Some? {
        var bag := [Field(stems[0], first.value)] + rest;
        assert bag[1..] == rest;
      } else {
        assert [] + rest == rest;
        if stem == stems[0] && Get(rest, stem).Some? {
          assert Nested(stem, d, depth, visited, m) == Ok(Get(rest, stem));
        }
      }
    }
  }

  lemma EraseTop(d: Dict, depth: int, visited: set<string>, m: Mesh)
    requires !Has(d, FLAT) && Inspect(d, depth, visited, m).Ok?
    ensures Del(Inspect(d, depth, visited, m).value, FLAT) == d
  {
    DelAbsent(d, FLAT);
    if depth > 0 {
      var bag := Bag(m.stems, d, depth, visited, m).value;
      DelOfSet(d, FLAT, Obj(bag));
    }
  }

  /** The bag of an inspected document, when it has one. */
  lemma BagOf(d: Dict, depth: int, visited: set<string>, m: Mesh)
    requires !Has(d, FLAT) && Inspect(d, depth, visited, m).Ok?
    ensures var flat := Get(Inspect(d, depth, visited, m).value, FLAT);
      flat.Some? ==> depth > 0 && flat == Some(Obj(Bag(m.stems, d, depth, visited, m).value))
  {
    if depth > 0 {
      GetSet(d, FLAT, Obj(Bag(m.stems, d, depth, visited, m).value), FLAT);
    }
  }

  /** A child in the bag is the referenced document, itself inspected one level less deep. */
  lemma ChildIs(d: Dict, depth: int, visited: set<string>, m: Mesh, stem: string)
    requires !Has(d, FLAT) && Inspect(d, depth, visited, m).Ok?
    requires At(Inspect(d, depth, visited, m).value, [stem]).Some?
    ensures depth > 0 && RefKey(d, stem, m).Ok? && RefKey(d, stem, m).value.Some?
    ensures var key := RefKey(d, stem, m).value.value;
      && m.cat(key).Ok?
      && (m.cat(key).value.Obj? ==>
            Inspect(m.cat(key).value.fields, depth - 1, visited + {key}, m).Ok?
            && At(Inspect(d, depth, visited, m).value, [stem])
               == Some(Obj(Inspect(m.cat(key).value.fields, depth - 1, visited + {key}, m).value)))
      && (!m.cat(key).value.Obj? ==> At(Inspect(d, depth, visited, m).value, [stem]) == Some(m.cat(key).value))
  {
    BagOf(d, depth, visited, m);
    BagGet(m.stems, d, depth, visited, m, stem);
  }

  /** The child by a key that is known. */
  lemma ChildBy(d: Dict, out: Dict, depth: int, visited: set<string>, m: Mesh, stem: string, key: string, inner: Dict)
    returns (nested: Dict)
    requires !Has(d, FLAT) && Inspect(d, depth, visited, m) == Ok(out) && At(out, [stem]).Some?
    requires RefKey(d, stem, m) == Ok(Some(key)) && m.cat(key) == Ok(Obj(inner))
    ensures depth > 0 && At(out, [stem]) == Some(Obj(nested))
    ensures Inspect(inner, depth - 1, visited + {key}, m) == Ok(nested)
  {
    ChildIs(d, depth, visited, m, stem);
    nested := At(out, [stem]).value.fields;
  }

  lemma AtStep(d: Dict, path: seq<string>)
    requires |path| > 1 && At(d, path).Some?
    ensures At(d, [path[0]]).Some? && At(d, [path[0]]).value.Obj?
    ensures At(d, path) == At(At(d, [path[0]]).value.fields, path[1..])
  {
  }

  lemma StoredStep(d: Dict, path: seq<string>, m: Mesh, key: string)
    requires |path| > 1 && RefKey(d, path[0], m) == Ok(Some(key)) && m.cat(key).Ok? && m.cat(key).value.Obj?
    ensures StoredAt(d, path, m) == StoredAt(m.cat(key).value.fields, path[1..], m)
  {
  }

  /** One level of the erasure law. */
  lemma ErasureOne(d: Dict, depth: int, visited: set<string>, m: Mesh, stem: string)
    requires !Has(d, FLAT) && StoredNoFlat(m) && Inspect(d, depth, visited, m).Ok?
    requires At(Inspect(d, depth, visited, m).value, [stem]).Some?
    ensures StoredAt(d, [stem], m) == Some(Erased(At(Inspect(d, depth, visited, m).value, [stem]).value))
  {
    ChildIs(d, depth, visited, m, stem);
    var key := RefKey(d, stem, m).value.value;
    var payload := m.cat(key).value;
    assert NoFlat(payload);
    if payload.Obj? {
      EraseTop(payload.fields, depth - 1, visited + {key}, m);
    }
  }

  /** The child a path goes through, and the document it comes from. */
  lemma ChildNode(d: Dict, out: Dict, depth: int, visited: set<string>, m: Mesh, stem: string)
    returns (key: string, inner: Dict)
    requires !Has(d, FLAT) && StoredNoFlat(m) && Inspect(d, depth, visited, m) == Ok(out)
    requires At(out, [stem]).Some? && At(out, [stem]).value.Obj?
    ensures depth > 0 && RefKey(d, stem, m) == Ok(Some(key)) && m.cat(key) == Ok(Obj(inner)) && !Has(inner, FLAT)
    ensures Inspect(inner, depth - 1, visited + {key}, m) == Ok(At(out, [stem]).value.fields)
  {
    ChildIs(d, depth, visited, m, stem);
    key := RefKey(d, stem, m).value.value;
    inner := m.cat(key).value.fields;
    assert NoFlat(m.cat(key).value);
  }

  lemma ErasureShort(d: Dict, out: Dict, depth: int, visited: set<string>, m: Mesh, path: seq<string>)
    requires !Has(d, FLAT) && StoredNoFlat(m) && Inspect(d, depth, visited, m) == Ok(out)
    requires |path| <= 1 && At(out, path).Some?
    ensures StoredAt(d, path, m) == Some(Erased(At(out, path).value))
  {
    if path == [] {
      EraseTop(d, depth, visited, m);
    } else {
      assert path == [path[0]];
      ErasureOne(d, depth, visited, m, path[0]);
    }
  }

  /** One step down a path, in the tree and in the store. */
  lemma PathStep(d: Dict, out: Dict, depth: int, visited: set<string>, m: Mesh, path: seq<string>)
    returns (key: string, inner: Dict, below: Dict)
    requires !Has(d, FLAT) && StoredNoFlat(m) && Inspect(d, depth, visited, m) == Ok(out)
    requires |path| > 1 && At(out, path).Some?
    ensures !Has(inner, FLAT) && Inspect(inner, depth - 1, visited + {key}, m) == Ok(below)
    ensures At(out, path) == At(below, path[1..]) && StoredAt(d, path, m) == StoredAt(inner, path[1..], m)
  {
    AtStep(out, path);
    key, inner := ChildNode(d, out, depth, visited, m, path[0]);
    below := At(out, [path[0]]).value.fields;
    StoredStep(d, path, m, key);
  }

  /** The erasure law: at every depth, a node without its bag is the stored document its path refers to. */
  lemma {:induction false} ErasureLaw(d: Dict, out: Dict, depth: int, visited: set<string>, m: Mesh, path: seq<string>)
    requires !Has(d, FLAT) && StoredNoFlat(m) && Inspect(d, depth, visited, m) == Ok(out)
    requires At(out, path).Some?
    ensures StoredAt(d, path, m) == Some(Erased(At(out, path).value))
    decreases |path|
  {
    if |path| <= 1 {
      ErasureShort(d, out, depth, visited, m, path);
    } else {
      var key, inner, below := PathStep(d, out, depth, visited, m, path);
      ErasureLaw(inner, below, depth - 1, visited + {key}, m, path[1..]);
    }
  }

  /** Which references are nested: with depth left, every allowlisted one that leads to a document and is not
      already on the path. */
  lemma NestedIff(d: Dict, depth: int, visited: set<string>, m: Mesh, stem: string)
    requires !Has(d, FLAT) && Inspect(d, depth, visited, m).Ok? && stem in m.stems
    ensures At(Inspect(d, depth, visited, m).value, [stem]).Some? <==>
      && depth > 0
      && RefKey(d, stem, m).Ok? && RefKey(d, stem, m).value.Some? && RefKey(d, stem, m).value.value !in visited
      && m.cat(RefKey(d, stem, m).value.value).Ok? && !m.cat(RefKey(d, stem, m).value.value).value.Null?
  {
    BagOf(d, depth, visited, m);
    if depth > 0 {
      BagGet(m.stems, d, depth, visited, m, stem);
      GetSet(d, FLAT, Obj(Bag(m.stems, d, depth, visited, m).value), FLAT);
    }
  }

  // --- flatten_bom -----------------------------------------------------------------------------------

  /** The Invoice half of `flatten_bom`, for a positive depth. */
  function FlattenBomInvoice(bom: Dict, maxDepth: int, m: Mesh): Result<Json> {
    var key :- RefKey(bom, "invoice", m);
    if key.None? then Err("BOM missing invoice_uri / invoice_cid")
    else
      var invoice :- m.cat(key.value);
      match invoice
      case Null => Err("BOM missing invoice_uri / invoice_cid")
      case Obj(d) => var out :- Inspect(d, maxDepth - 1, {key.value}, m); Ok(Obj(out))
      case _ => Ok(invoice)
  }

  /** The log half, inspected after the Invoice; a BOM without a log has none. */
  function FlattenBomLog(bom: Dict, maxDepth: int, m: Mesh): Result<Option<Json>> {
    var invoiceKey :- RefKey(bom, "invoice", m);
    var key :- RefKey(bom, "log", m);
    if key.None? then Ok(None)
    else
      var log :- m.cat(key.value);
      var visited := if invoiceKey.Some? then {invoiceKey.value, key.value} else {key.value};
      match log
      case Null => Ok(None)
      case Obj(d) => var out :- Inspect(d, maxDepth - 1, visited, m); Ok(Some(Obj(out)))
      case _ => Ok(Some(log))
  }
}
