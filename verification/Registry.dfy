/** Append-only BOM registry with two reverse indexes (cats/network/registry/store.py). */
module Registry {
  import opened Digest
  import opened Json
  import opened Text
  import opened Wrappers

  /** `record.get(key) or record.get(legacy)`, when it is a non-blank string. */
  function RecordId(record: Dict, key: string, legacy: string): Option<string> {
    var first := Get(record, key);
    var value := if first.Some? && Truthy(first.value) then first else Get(record, legacy);
    if value.Some? && value.value.Str? && Strip(value.value.s) != [] then Some(Strip(value.value.s)) else None
  }

  function RecordBomId(record: Dict): Option<string> { RecordId(record, "content_id", "bom_cid") }
  function RecordOrderId(record: Dict): Option<string> { RecordId(record, "order", "order_cid") }
  function RecordDataId(record: Dict): Option<string> { RecordId(record, "data", "data_cid") }

  const LEGACY_KEYS: seq<string> :=
    ["bom_cid", "invoice_cid", "order_cid", "data_cid", "input_data_cid", "function_cid", "structure_cid",
     "ingress_data_cid", "integration_data_cid", "seed_cid", "runtime_sbom_cid"]

  function DropKeys(d: Dict, keys: seq<string>): Dict
    decreases |keys|
  {
    if keys == [] then d else DropKeys(Del(d, keys[0]), keys[1..])
  }

  function OrEmpty(o: Option<string>): string {
    if o.Some? then o.value else ""
  }

  /** What a `put` is about to write: canonical ids, their file keys and the stored record. */
  datatype Filing = Filing(bom: string, bomKey: string, orderKey: string, dataKey: string, stored: Dict)

  /** The canonical form of an id and its file key. */
  function Filed(id: Option<string>): (r: Result<(string, string)>)
    ensures r.Ok? ==> ContentIdFsKey(r.value.0) == Ok(r.value.1)
  {
    var canonical :- NormalizeContentId(OrEmpty(id));
    var key :- ContentIdFsKey(canonical);
    Ok((canonical, key))
  }

  /** The record as written: legacy keys dropped, the three ids in canonical form. */
  function Stored(record: Dict, bom: string, order: string, data: string): Dict {
    Set(Set(Set(DropKeys(record, LEGACY_KEYS), "content_id", Str(bom)), "order", Str(order)), "data", Str(data))
  }

  function FilingOf(record: Dict): (r: Result<Filing>)
    ensures r.Ok? ==> ContentIdFsKey(r.value.bom) == Ok(r.value.bomKey)
  {
    var (bom, bomKey) :- Filed(RecordBomId(record));
    var (order, orderKey) :- Filed(RecordOrderId(record));
    var (data, dataKey) :- Filed(RecordDataId(record));
    Ok(Filing(bom, bomKey, orderKey, dataKey, Stored(record, bom, order, data)))
  }

  type Reverse = map<string, seq<string>>

  /** The three directories. */
  datatype Files = Files(boms: map<string, Dict>, byData: Reverse, byOrder: Reverse)

  const EMPTY: Files := Files(map[], map[], map[])

  function ListAt(index: Reverse, key: string): seq<string> {
    if key in index then index[key] else []
  }

  /** Newest first; an id already listed stays where it is. */
  function Prepended(list: seq<string>, bom: string): seq<string> {
    if bom in list then list else [bom] + list
  }

  /** `_append_index`, which writes nothing when the id is already listed. */
  function Appended(index: Reverse, key: string, bom: string): Reverse {
    if bom in ListAt(index, key) then index else index[key := Prepended(ListAt(index, key), bom)]
  }

  /** The first `stop` of the three writes. */
  function Written(s: Files, f: Filing, stop: nat): Files {
    var s1 := if stop >= 1 then s.(boms := s.boms[f.bomKey := f.stored]) else s;
    var s2 := if stop >= 2 then s1.(byData := Appended(s1.byData, f.dataKey, f.bom)) else s1;
    if stop >= 3 then s2.(byOrder := Appended(s2.byOrder, f.orderKey, f.bom)) else s2
  }

  /** A `put` that stops after `stop` writes; a record without usable ids raises before the first. */
  function PutUpTo(s: Files, record: Dict, stop: nat): Files {
    match FilingOf(record)
    case Err(_) => s
    case Ok(f) => Written(s, f, stop)
  }

  function GetRecord(s: Files, id: string): Result<Option<Dict>> {
    var key :- ContentIdFsKey(id);
    Ok(if key in s.boms then Some(s.boms[key]) else None)
  }

  function LookupOrder(s: Files, id: string): Result<Option<string>> {
    var record :- GetRecord(s, id);
    Ok(if record.None? then None else RecordOrderId(record.value))
  }

  function LookupBom(s: Files, dataId: string): Result<seq<string>> {
    var key :- ContentIdFsKey(dataId);
    Ok(ListAt(s.byData, key))
  }

  function LookupByOrder(s: Files, orderId: string): Result<seq<string>> {
    var key :- ContentIdFsKey(orderId);
    Ok(ListAt(s.byOrder, key))
  }

  datatype Unique = Sole(bom: string) | NoBom | Ambiguous(boms: seq<string>) | BadId

  function ResolveUniqueBom(s: Files, dataId: string): Unique {
    match LookupBom(s, dataId)
    case Err(_) => BadId
    case Ok(boms) =>
      if boms == [] then NoBom else if |boms| > 1 then Ambiguous(boms) else Sole(boms[0])
  }

  class BomRegistry {
    var boms: map<string, Dict>
    var byData: Reverse
    var byOrder: Reverse

    ghost function Contents(): Files
      reads this
    {
      Files(boms, byData, byOrder)
    }

    constructor ()
      ensures Contents() == EMPTY
    {
      boms, byData, byOrder := map[], map[], map[];
    }

    method WriteRecord(f: Filing)
      modifies this`boms
      ensures Contents() == Written(old(Contents()), f, 1)
    {
      boms := boms[f.bomKey := f.stored];
    }

    method AppendData(f: Filing)
      modifies this`byData
      ensures byData == Appended(old(byData), f.dataKey, f.bom)
    {
      var existing := if f.dataKey in byData then byData[f.dataKey] else [];
      if f.bom in existing {
        return;
      }
      byData := byData[f.dataKey := [f.bom] + existing];
    }

    method AppendOrder(f: Filing)
      modifies this`byOrder
      ensures byOrder == Appended(old(byOrder), f.orderKey, f.bom)
    {
      var existing := if f.orderKey in byOrder then byOrder[f.orderKey] else [];
      if f.bom in existing {
        return;
      }
      byOrder := byOrder[f.orderKey := [f.bom] + existing];
    }

    /** `put`, run to the end. */
    method Put(record: Dict) returns (r: Result<string>)
      modifies this
      ensures Contents() == PutUpTo(old(Contents()), record, 3)
      ensures r.Ok? <==> Usable(record)
      ensures r.Ok? ==> r == ContentIdFsKey(RecordBomId(record).value)
    {
      FilingIs(record);
      var f :- FilingOf(record);
      WriteRecord(f);
      AppendData(f);
      AppendOrder(f);
      return Ok(f.bomKey);
    }
  }

  // --- every history of puts, complete or cut short --------------------------------------------------

  datatype Call = Call(record: Dict, stop: nat)

  function Replay(history: seq<Call>): Files {
    if history == [] then EMPTY
    else
      var last := history[|history| - 1];
      PutUpTo(Replay(history[..|history| - 1]), last.record, last.stop)
  }

  predicate Fileable(id: Option<string>) {
    id.Some? && ContentIdFsKey(id.value).Ok?
  }

  /** All three ids of the record are there and can be filed. */
  predicate Usable(record: Dict) {
    Fileable(RecordBomId(record)) && Fileable(RecordOrderId(record)) && Fileable(RecordDataId(record))
  }

  /** The canonical BOM id of a record. */
  function BomOf(record: Dict): string
    requires Usable(record)
  {
    FsKeyAgreesWithNormalForm(RecordBomId(record).value, RecordBomId(record).value);
    NormalizeContentId(RecordBomId(record).value).value
  }

  /** The ids a call appends under a data key: its BOM id if that is the key of its data id and the call got to the
      second write, or nothing. */
  function DataPut(call: Call, key: string): seq<string> {
    if call.stop >= 2 && Usable(call.record) && ContentIdFsKey(RecordDataId(call.record).value) == Ok(key)
    then [BomOf(call.record)] else []
  }

  function OrderPut(call: Call, key: string): seq<string> {
    if call.stop >= 3 && Usable(call.record) && ContentIdFsKey(RecordOrderId(call.record).value) == Ok(key)
    then [BomOf(call.record)] else []
  }

  lemma FiledIs(id: Option<string>)
    ensures Filed(id).Ok? <==> Fileable(id)
    ensures Fileable(id) ==> Filed(id).value == (NormalizeContentId(id.value).value, ContentIdFsKey(id.value).value)
  {
    assert ContentIdFsKey("").Err? by { assert Strip("") == ""; }
    FsKeyAgreesWithNormalForm(OrEmpty(id), OrEmpty(id));
    if Fileable(id) {
      NormalFormKey(id.value);
    }
  }

  /** What a record is filed under: its BOM, Order and data each under the key of its own id. */
  lemma FilingIs(record: Dict)
    ensures FilingOf(record).Ok? <==> Usable(record)
    ensures Usable(record) ==>
      var f := FilingOf(record).value;
      && f.bom == BomOf(record) && Ok(f.bomKey) == ContentIdFsKey(RecordBomId(record).value)
      && Ok(f.orderKey) == ContentIdFsKey(RecordOrderId(record).value)
      && Ok(f.dataKey) == ContentIdFsKey(RecordDataId(record).value)
  {
    FiledIs(RecordBomId(record));
    FiledIs(RecordOrderId(record));
    FiledIs(RecordDataId(record));
  }

  /** The BOM ids appended under a data key, oldest call first, repeats included. */
  function DataPuts(history: seq<Call>, key: string): seq<string> {
    if history == [] then []
    else DataPuts(history[..|history| - 1], key) + DataPut(history[|history| - 1], key)
  }

  function OrderPuts(history: seq<Call>, key: string): seq<string> {
    if history == [] then []
    else OrderPuts(history[..|history| - 1], key) + OrderPut(history[|history| - 1], key)
  }

  /** Where `x` first occurs; the length when it does not. */
  function FirstAt(xs: seq<string>, x: string): nat {
    if xs == [] || xs[0] == x then 0 else 1 + FirstAt(xs[1..], x)
  }

  /** `list` holds the elements of `xs` once each, the latest newcomer first. */
  ghost predicate NewestFirst(list: seq<string>, xs: seq<string>) {
    && (forall b :: b in list <==> b in xs)
    && (forall i, j :: 0 <= i < j < |list| ==> FirstAt(xs, list[i]) > FirstAt(xs, list[j]))
  }

  lemma {:induction false} FirstAtSnoc(xs: seq<string>, last: string, x: string)
    ensures x in xs ==> FirstAt(xs + [last], x) == FirstAt(xs, x) < |xs|
    ensures x !in xs && x == last ==> FirstAt(xs + [last], x) == |xs|
  {
    if xs != [] {
      assert (xs + [last])[1..] == xs[1..] + [last];
      FirstAtSnoc(xs[1..], last, x);
    }
  }

  lemma NewestFirstPrepended(list: seq<string>, xs: seq<string>, bom: string)
    requires NewestFirst(list, xs)
    ensures NewestFirst(Prepended(list, bom), xs + [bom])
  {
    var ys, list' := xs + [bom], Prepended(list, bom);
    forall b ensures b in list' <==> b in ys {
      assert b in ys <==> b in xs || b == bom;
      assert b in list' <==> b in list || b == bom;
    }
    forall i, j | 0 <= i < j < |list'| ensures FirstAt(ys, list'[i]) > FirstAt(ys, list'[j]) {
      assert list'[j] in list && list'[j] in xs;
      FirstAtSnoc(xs, bom, list'[j]);
      FirstAtSnoc(xs, bom, list'[i]);
      if bom in list {
        assert list'[i] in xs;
      } else if i > 0 {
        assert list'[i] == list[i - 1] && list'[j] == list[j - 1];
        assert list'[i] in xs;
      }
    }
  }

  lemma WrittenLists(s: Files, f: Filing, stop: nat, key: string)
    ensures ListAt(Written(s, f, stop).byData, key)
         == if stop >= 2 && f.dataKey == key then Prepended(ListAt(s.byData, key), f.bom) else ListAt(s.byData, key)
    ensures ListAt(Written(s, f, stop).byOrder, key)
         == if stop >= 3 && f.orderKey == key then Prepended(ListAt(s.byOrder, key), f.bom) else ListAt(s.byOrder, key)
  {
  }

  lemma CallLists(s: Files, call: Call, key: string)
    ensures var s' := PutUpTo(s, call.record, call.stop);
      && ListAt(s'.byData, key) ==
           (if DataPut(call, key) == [] then ListAt(s.byData, key)
            else Prepended(ListAt(s.byData, key), DataPut(call, key)[0]))
      && ListAt(s'.byOrder, key) ==
           (if OrderPut(call, key) == [] then ListAt(s.byOrder, key)
            else Prepended(ListAt(s.byOrder, key), OrderPut(call, key)[0]))
      && |DataPut(call, key)| <= 1 && |OrderPut(call, key)| <= 1
  {
    FilingIs(call.record);
    match FilingOf(call.record) {
      case Err(_) =>
      case Ok(f) => WrittenLists(s, f, call.stop, key);
    }
  }

  lemma NewestFirstMore(list: seq<string>, xs: seq<string>, more: seq<string>)
    requires NewestFirst(list, xs) && |more| <= 1
    ensures NewestFirst(if more == [] then list else Prepended(list, more[0]), xs + more)
  {
    if more == [] {
      assert xs + more == xs;
    } else {
      assert more == [more[0]];
      NewestFirstPrepended(list, xs, more[0]);
    }
  }

  /** After any history, each reverse list is the duplicate-free, newest-first list of the ids put. */
  lemma {:induction false} IndexesAreHistory(history: seq<Call>, key: string)
    ensures NewestFirst(ListAt(Replay(history).byData, key), DataPuts(history, key))
    ensures NewestFirst(ListAt(Replay(history).byOrder, key), OrderPuts(history, key))
  {
    if history != [] {
      var front, last := history[..|history| - 1], history[|history| - 1];
      IndexesAreHistory(front, key);
      CallLists(Replay(front), last, key);
      NewestFirstMore(ListAt(Replay(front).byData, key), DataPuts(front, key), DataPut(last, key));
      NewestFirstMore(ListAt(Replay(front).byOrder, key), OrderPuts(front, key), OrderPut(last, key));
    }
  }

  lemma NewestFirstDistinct(list: seq<string>, xs: seq<string>, i: nat, j: nat)
    requires NewestFirst(list, xs) && i < j < |list|
    ensures list[i] != list[j]
  {
  }

  /** `lookup_bom` and `lookup_by_order` for any spelling of the id. */
  lemma LookupsAreHistory(history: seq<Call>, id: string)
    requires ContentIdFsKey(id).Ok?
    ensures LookupBom(Replay(history), id).Ok? && LookupByOrder(Replay(history), id).Ok?
    ensures NewestFirst(LookupBom(Replay(history), id).value, DataPuts(history, ContentIdFsKey(id).value))
    ensures NewestFirst(LookupByOrder(Replay(history), id).value, OrderPuts(history, ContentIdFsKey(id).value))
  {
    IndexesAreHistory(history, ContentIdFsKey(id).value);
  }

  /** Unique resolution returns `b` exactly when `b` was put with the data and nothing else was. */
  lemma UniqueIffSole(history: seq<Call>, id: string, b: string)
    requires ContentIdFsKey(id).Ok?
    ensures ResolveUniqueBom(Replay(history), id) == Sole(b) <==>
      var puts := DataPuts(history, ContentIdFsKey(id).value);
      puts != [] && forall i :: 0 <= i < |puts| ==> puts[i] == b
  {
    var key := ContentIdFsKey(id).value;
    IndexesAreHistory(history, key);
    SoleIff(ListAt(Replay(history).byData, key), DataPuts(history, key), b);
  }

  lemma SoleIff(boms: seq<string>, puts: seq<string>, b: string)
    requires NewestFirst(boms, puts)
    ensures (|boms| == 1 && boms[0] == b) <==> (puts != [] && forall i :: 0 <= i < |puts| ==> puts[i] == b)
  {
    if boms != [] { assert boms[0] in puts; }
    if puts != [] { assert puts[0] in boms; }
    if |boms| > 1 {
      assert boms[1] in puts;
      NewestFirstDistinct(boms, puts, 0, 1);
    }
    if |boms| == 1 {
      forall i | 0 <= i < |puts| ensures puts[i] == boms[0] {
        assert puts[i] in boms;
      }
    }
  }

  /** Putting again finishes a put that was cut short anywhere, and changes nothing after a full one. */
  lemma RePutRepairs(s: Files, record: Dict, stop: nat)
    ensures PutUpTo(PutUpTo(s, record, stop), record, 3) == PutUpTo(s, record, 3)
  {
    match FilingOf(record) {
      case Err(_) =>
      case Ok(f) => AppendTwice(s, f, stop);
    }
  }

  lemma AppendTwice(s: Files, f: Filing, stop: nat)
    ensures Written(Written(s, f, stop), f, 3) == Written(s, f, 3)
  {
    assert s.boms[f.bomKey := f.stored][f.bomKey := f.stored] == s.boms[f.bomKey := f.stored];
    assert Appended(Appended(s.byData, f.dataKey, f.bom), f.dataKey, f.bom) == Appended(s.byData, f.dataKey, f.bom);
    assert Appended(Appended(s.byOrder, f.orderKey, f.bom), f.orderKey, f.bom)
         == Appended(s.byOrder, f.orderKey, f.bom);
  }

  /** Every id in a reverse list has a record. */
  ghost predicate NoDangling(s: Files) {
    && (forall k, b :: k in s.byData && b in s.byData[k] ==> HasRecord(s, b))
    && (forall k, b :: k in s.byOrder && b in s.byOrder[k] ==> HasRecord(s, b))
  }

  ghost predicate HasRecord(s: Files, bom: string) {
    ContentIdFsKey(bom).Ok? && ContentIdFsKey(bom).value in s.boms
  }

  lemma WrittenNoDangling(s: Files, f: Filing, stop: nat)
    requires NoDangling(s) && ContentIdFsKey(f.bom) == Ok(f.bomKey)
    ensures NoDangling(Written(s, f, stop))
  {
    var s' := Written(s, f, stop);
    assert forall b :: HasRecord(s, b) ==> HasRecord(s', b);
    assert stop >= 1 ==> HasRecord(s', f.bom);
    forall k, b | k in s'.byData && b in s'.byData[k] ensures HasRecord(s', b) {
      WrittenLists(s, f, stop, k);
      assert b in ListAt(s.byData, k) || (stop >= 2 && b == f.bom);
    }
    forall k, b | k in s'.byOrder && b in s'.byOrder[k] ensures HasRecord(s', b) {
      WrittenLists(s, f, stop, k);
      assert b in ListAt(s.byOrder, k) || (stop >= 3 && b == f.bom);
    }
  }

  lemma PutNoDangling(s: Files, record: Dict, stop: nat)
    requires NoDangling(s)
    ensures NoDangling(PutUpTo(s, record, stop))
  {
    if FilingOf(record).Ok? {
      WrittenNoDangling(s, FilingOf(record).value, stop);
    }
  }

  /** However puts are cut short, no reverse entry ever names a BOM without a record. */
  lemma {:induction false} NeverDangling(history: seq<Call>)
    ensures NoDangling(Replay(history))
  {
    if history != [] {
      NeverDangling(history[..|history| - 1]);
      PutNoDangling(Replay(history[..|history| - 1]), history[|history| - 1].record, history[|history| - 1].stop);
    }
  }

  /** Once its first write is done a BOM answers with the canonical order id, under any spelling of its own id. */
  lemma PutThenLookupOrder(s: Files, record: Dict, stop: nat, id: string)
    requires FilingOf(record).Ok? && stop >= 1
    requires ContentIdFsKey(id) == Ok(FilingOf(record).value.bomKey)
    ensures LookupOrder(PutUpTo(s, record, stop), id) == Ok(Some(Filed(RecordOrderId(record)).value.0))
  {
    var f := FilingOf(record).value;
    var order := Filed(RecordOrderId(record)).value.0;
    StoredOrder(record);
    assert PutUpTo(s, record, stop).boms[f.bomKey] == f.stored;
  }

  lemma StoredOrder(record: Dict)
    requires FilingOf(record).Ok?
    ensures Filed(RecordOrderId(record)).Ok?
    ensures RecordOrderId(FilingOf(record).value.stored) == Some(Filed(RecordOrderId(record)).value.0)
  {
    var order := Filed(RecordOrderId(record)).value.0;
    NormalFormTrimmed(OrEmpty(RecordOrderId(record)));
    OrderOfStored(record, Filed(RecordBomId(record)).value.0, order, Filed(RecordDataId(record)).value.0);
  }

  lemma OrderOfStored(record: Dict, bom: string, order: string, data: string)
    requires order != [] && Strip(order) == order
    ensures RecordOrderId(Stored(record, bom, order, data)) == Some(order)
  {
    var d1 := Set(DropKeys(record, LEGACY_KEYS), "content_id", Str(bom));
    GetSet(d1, "order", Str(order), "order");
    GetSet(Set(d1, "order", Str(order)), "data", Str(data), "order");
  }

  // --- one put, read off the record itself -----------------------------------------------------------

  /** The record says this under the key, or under the legacy key where the first is missing or falsy. */
  ghost predicate Says(record: Dict, key: string, legacy: string, id: string) {
    || (id != [] && Get(record, key) == Some(Str(id)))
    || ((Get(record, key).None? || !Truthy(Get(record, key).value)) && Get(record, legacy) == Some(Str(id)))
  }

  /** A field with a legacy name. */
  ghost predicate LegacyField(k: string) {
    || k in {"bom_cid", "invoice_cid", "order_cid", "data_cid", "input_data_cid", "function_cid"}
    || k in {"structure_cid", "ingress_data_cid", "integration_data_cid", "seed_cid", "runtime_sbom_cid"}
  }

  /** A field of a stored record: the three ids in canonical form, no legacy field, all others as they were. */
  ghost predicate StoredField(record: Dict, stored: Dict, bom: string, order: string, data: string, k: string) {
    Get(stored, k) ==
      if k == "content_id" then Some(Str(bom))
      else if k == "order" then Some(Str(order))
      else if k == "data" then Some(Str(data))
      else if LegacyField(k) then None
      else Get(record, k)
  }

  lemma SaysIs(record: Dict, key: string, legacy: string, id: string)
    requires Says(record, key, legacy, id) && ContentIdFsKey(id).Ok?
    ensures RecordId(record, key, legacy) == Some(Strip(id))
    ensures ContentIdFsKey(Strip(id)) == ContentIdFsKey(id) && NormalizeContentId(Strip(id)) == NormalizeContentId(id)
  {
    StripTwice(id);
  }

  lemma SaysUsable(record: Dict, b: string, o: string, d: string)
    requires Says(record, "content_id", "bom_cid", b) && Says(record, "order", "order_cid", o)
      && Says(record, "data", "data_cid", d)
    requires ContentIdFsKey(b).Ok? && ContentIdFsKey(o).Ok? && ContentIdFsKey(d).Ok?
    ensures RecordBomId(record) == Some(Strip(b)) && RecordOrderId(record) == Some(Strip(o))
    ensures RecordDataId(record) == Some(Strip(d)) && Usable(record)
  {
    SaysIs(record, "content_id", "bom_cid", b);
    SaysIs(record, "order", "order_cid", o);
    SaysIs(record, "data", "data_cid", d);
    FsKeyAgreesWithNormalForm(b, b);
  }

  /** A put succeeds exactly for records that say three ids that can be filed. */
  lemma UsableIff(record: Dict)
    ensures FilingOf(record).Ok? <==> exists b, o, d ::
      && Says(record, "content_id", "bom_cid", b) && Says(record, "order", "order_cid", o)
      && Says(record, "data", "data_cid", d)
      && ContentIdFsKey(b).Ok? && ContentIdFsKey(o).Ok? && ContentIdFsKey(d).Ok?
  {
    FilingIs(record);
    if b, o, d :|
      && Says(record, "content_id", "bom_cid", b) && Says(record, "order", "order_cid", o)
      && Says(record, "data", "data_cid", d)
      && ContentIdFsKey(b).Ok? && ContentIdFsKey(o).Ok? && ContentIdFsKey(d).Ok?
    {
      SaysUsable(record, b, o, d);
    }
    if Usable(record) {
      var b := Said(record, "content_id", "bom_cid");
      var o := Said(record, "order", "order_cid");
      var d := Said(record, "data", "data_cid");
    }
  }

  lemma Said(record: Dict, key: string, legacy: string) returns (id: string)
    requires Fileable(RecordId(record, key, legacy))
    ensures Says(record, key, legacy, id) && ContentIdFsKey(id).Ok?
  {
    var first := Get(record, key);
    var value := if first.Some? && Truthy(first.value) then first else Get(record, legacy);
    id := value.value.s;
    StripTwice(id);
  }

  lemma {:induction false} DroppedKeys(d: Dict, keys: seq<string>, k: string)
    ensures Get(DropKeys(d, keys), k) == if k in keys then None else Get(d, k)
    decreases |keys|
  {
    if keys != [] {
      GetDel(d, keys[0], k);
      DroppedKeys(Del(d, keys[0]), keys[1..], k);
    }
  }

  lemma LegacyKeysAre(k: string)
    ensures k in LEGACY_KEYS <==> LegacyField(k)
  {
    var keys := LEGACY_KEYS;
    OneOfEleven(keys, k);
  }

  lemma OneOfEleven(keys: seq<string>, k: string)
    requires |keys| == 11
    ensures k in keys <==>
      || k == keys[0] || k == keys[1] || k == keys[2] || k == keys[3] || k == keys[4] || k == keys[5]
      || k == keys[6] || k == keys[7] || k == keys[8] || k == keys[9] || k == keys[10]
  {
  }

  lemma StoredIs(record: Dict, bom: string, order: string, data: string, k: string)
    ensures StoredField(record, Stored(record, bom, order, data), bom, order, data, k)
  {
    LegacyKeysAre(k);
    DroppedKeys(record, LEGACY_KEYS, k);
    var d0 := DropKeys(record, LEGACY_KEYS);
    var d1 := Set(d0, "content_id", Str(bom));
    GetSet(d0, "content_id", Str(bom), k);
    GetSet(d1, "order", Str(order), k);
    GetSet(Set(d1, "order", Str(order)), "data", Str(data), k);
  }

  /** The filing of a record, read off what it says. */
  lemma FilingSays(record: Dict, b: string, o: string, d: string)
    requires Says(record, "content_id", "bom_cid", b) && Says(record, "order", "order_cid", o)
      && Says(record, "data", "data_cid", d)
    requires ContentIdFsKey(b).Ok? && ContentIdFsKey(o).Ok? && ContentIdFsKey(d).Ok?
    ensures NormalizeContentId(b).Ok? && NormalizeContentId(o).Ok? && NormalizeContentId(d).Ok?
    ensures var (bom, order, data) := (NormalizeContentId(b).value, NormalizeContentId(o).value,
                                       NormalizeContentId(d).value);
      FilingOf(record) == Ok(Filing(bom, ContentIdFsKey(b).value, ContentIdFsKey(o).value, ContentIdFsKey(d).value,
                                    Stored(record, bom, order, data)))
  {
    SaidFiled(record, "content_id", "bom_cid", b);
    SaidFiled(record, "order", "order_cid", o);
    SaidFiled(record, "data", "data_cid", d);
  }

  lemma SaidFiled(record: Dict, key: string, legacy: string, id: string)
    requires Says(record, key, legacy, id) && ContentIdFsKey(id).Ok?
    ensures NormalizeContentId(id).Ok?
    ensures Filed(RecordId(record, key, legacy)) == Ok((NormalizeContentId(id).value, ContentIdFsKey(id).value))
  {
    SaysIs(record, key, legacy, id);
    FsKeyAgreesWithNormalForm(id, id);
    FiledIs(Some(Strip(id)));
  }

  /** One record was written under the key, with the ids given. */
  ghost predicate Stores(s: Files, s': Files, key: string, record: Dict, bom: string, order: string, data: string) {
    && key in s'.boms && s'.boms == s.boms[key := s'.boms[key]]
    && forall k :: StoredField(record, s'.boms[key], bom, order, data, k)
  }

  lemma WrittenStores(s: Files, f: Filing, record: Dict, order: string, data: string)
    requires f.stored == Stored(record, f.bom, order, data)
    ensures Stores(s, Written(s, f, 3), f.bomKey, record, f.bom, order, data)
  {
    forall k ensures StoredField(record, f.stored, f.bom, order, data, k) {
      StoredIs(record, f.bom, order, data, k);
    }
  }

  lemma PutIs(s: Files, record: Dict, f: Filing, stop: nat)
    requires FilingOf(record) == Ok(f)
    ensures PutUpTo(s, record, stop) == Written(s, f, stop)
  {
  }

  /** Where a put puts its record: under the key of the BOM id, with the ids it says. */
  lemma PutStores(s: Files, record: Dict, b: string, o: string, d: string)
    requires Says(record, "content_id", "bom_cid", b) && Says(record, "order", "order_cid", o)
      && Says(record, "data", "data_cid", d)
    requires ContentIdFsKey(b).Ok? && ContentIdFsKey(o).Ok? && ContentIdFsKey(d).Ok?
    ensures NormalizeContentId(b).Ok? && NormalizeContentId(o).Ok? && NormalizeContentId(d).Ok?
    ensures Stores(s, PutUpTo(s, record, 3), ContentIdFsKey(b).value, record, NormalizeContentId(b).value,
                   NormalizeContentId(o).value, NormalizeContentId(d).value)
  {
    FilingSays(record, b, o, d);
    var bom, order, data := NormalizeContentId(b).value, NormalizeContentId(o).value, NormalizeContentId(d).value;
    var f := Filing(bom, ContentIdFsKey(b).value, ContentIdFsKey(o).value, ContentIdFsKey(d).value,
                    Stored(record, bom, order, data));
    PutIs(s, record, f, 3);
    WrittenStores(s, f, record, order, data);
  }

  /** The reverse lists afterwards: the BOM in front under its own keys, unless it is there already. */
  ghost predicate Listed(s: Files, s': Files, bom: string, order: string, data: string, key: string) {
    && ListAt(s'.byData, key) == (if key == data then NowFirst(ListAt(s.byData, key), bom) else ListAt(s.byData, key))
    && ListAt(s'.byOrder, key) == (if key
                                   == order then NowFirst(ListAt(s.byOrder, key), bom) else ListAt(s.byOrder, key))
  }

  /** Where a put lists its BOM: first under the key of its data id and first under the key of its Order id; other lists
      stay. */
  lemma PutLists(s: Files, record: Dict, b: string, o: string, d: string, key: string)
    requires Says(record, "content_id", "bom_cid", b) && Says(record, "order", "order_cid", o)
      && Says(record, "data", "data_cid", d)
    requires ContentIdFsKey(b).Ok? && ContentIdFsKey(o).Ok? && ContentIdFsKey(d).Ok?
    ensures NormalizeContentId(b).Ok?
    ensures Listed(s, PutUpTo(s, record, 3), NormalizeContentId(b).value, ContentIdFsKey(o).value,
                   ContentIdFsKey(d).value, key)
  {
    FilingSays(record, b, o, d);
    var bom, order, data := NormalizeContentId(b).value, NormalizeContentId(o).value, NormalizeContentId(d).value;
    var f := Filing(bom, ContentIdFsKey(b).value, ContentIdFsKey(o).value, ContentIdFsKey(d).value,
                    Stored(record, bom, order, data));
    PutIs(s, record, f, 3);
    WrittenListed(s, f, key);
  }

  lemma WrittenListed(s: Files, f: Filing, key: string)
    ensures Listed(s, Written(s, f, 3), f.bom, f.orderKey, f.dataKey, key)
  {
    WrittenLists(s, f, 3, key);
  }

  /** What the lookups answer, given the key of what they are asked for. */
  lemma Answers(s: Files, id: string, key: string)
    requires ContentIdFsKey(id) == Ok(key)
    ensures LookupBom(s, id) == Ok(ListAt(s.byData, key)) && LookupByOrder(s, id) == Ok(ListAt(s.byOrder, key))
    ensures key in s.boms ==> LookupOrder(s, id) == Ok(RecordOrderId(s.boms[key]))
  {
  }

  lemma OrderRead(record: Dict, order: string)
    requires Get(record, "order") == Some(Str(order)) && order != [] && Strip(order) == order
    ensures RecordOrderId(record) == Some(order)
  {
  }

  /** So the three lookups answer with what was just put, in whatever spelling they are asked. */
  lemma PutThenLookups(s: Files, record: Dict, b: string, o: string, d: string, bom: string, order: string,
                       data: string)
    requires Says(record, "content_id", "bom_cid", b) && Says(record, "order", "order_cid", o)
      && Says(record, "data", "data_cid", d)
    requires ContentIdFsKey(b).Ok? && ContentIdFsKey(o).Ok? && ContentIdFsKey(d).Ok?
    requires ContentIdFsKey(bom) == ContentIdFsKey(b) && ContentIdFsKey(order) == ContentIdFsKey(o)
      && ContentIdFsKey(data) == ContentIdFsKey(d)
    ensures NormalizeContentId(b).Ok? && NormalizeContentId(o).Ok?
    ensures var s' := PutUpTo(s, record, 3);
      && LookupBom(s', data).Ok? && NormalizeContentId(b).value in LookupBom(s', data).value
      && LookupByOrder(s', order).Ok? && NormalizeContentId(b).value in LookupByOrder(s', order).value
      && LookupOrder(s', bom) == Ok(Some(NormalizeContentId(o).value))
  {
    var s' := PutUpTo(s, record, 3);
    var bk, ok, dk := ContentIdFsKey(b).value, ContentIdFsKey(o).value, ContentIdFsKey(d).value;
    PutLists(s, record, b, o, d, ok);
    PutLists(s, record, b, o, d, dk);
    PutStores(s, record, b, o, d);
    NormalFormTrimmed(o);
    AfterPut(s, s', NormalizeContentId(b).value, NormalizeContentId(o).value, NormalizeContentId(d).value, bk, ok, dk,
             record);
    Answers(s', bom, bk);
    Answers(s', order, ok);
    Answers(s', data, dk);
  }

  lemma AfterPut(s: Files, s': Files, bom: string, order: string, data: string, bk: string, ok: string, dk: string,
                 record: Dict)
    requires Listed(s, s', bom, ok, dk, ok) && Listed(s, s', bom, ok, dk, dk)
    requires Stores(s, s', bk, record, bom, order, data) && order != [] && Strip(order) == order
    ensures bom in ListAt(s'.byData, dk) && bom in ListAt(s'.byOrder, ok)
    ensures bk in s'.boms && RecordOrderId(s'.boms[bk]) == Some(order)
  {
    assert StoredField(record, s'.boms[bk], bom, order, data, "order");
    OrderRead(s'.boms[bk], order);
  }

  /** The list with the id in front, unless it holds it already. */
  ghost function NowFirst(list: seq<string>, bom: string): seq<string> {
    if exists i :: 0 <= i < |list| && list[i] == bom then list else [bom] + list
  }
}
