/** The assertions over an execution BOM: `prov:used` bind (cats/network/registry/execution_bind.py), as-executed bind
    (cats/network/registry/as_executed.py), payload lineage (cats/network/cas/manifest_equiv.py). */
module BomChecks {
  import opened ContentRef
  import opened Digest
  import opened ExecutionBom
  import opened Json
  import opened Text
  import opened Wrappers

  /** Where a JSON document is fetched by URI; an error is a raised exception. */
  type HttpGetJson = string -> Result<Json>

  // --- tokens ----------------------------------------------------------------------------------------

  function WithoutIpfs(text: string): string {
    if IPFS <= Lower(text) then text[|IPFS|..] else text
  }

  /** `_ref_token`; a malformed `ni:` raises. */
  function RefToken(value: string): Result<string> {
    var text := WithoutIpfs(Strip(value));
    if IsHttpUri(text) then Ok(Lower(AfterLastSlash(RStripSlash(text))))
    else if IsNiOrDigest(text) then var hex :- FromNi(text); Ok(Lower(hex))
    else Ok(Lower(text))
  }

  predicate NonBlank(j: Option<Json>) {
    j.Some? && j.value.Str? && Strip(j.value.s) != []
  }

  function Candidate(entity: Dict, key: string): Result<seq<string>> {
    if NonBlank(Get(entity, key)) then
      var token :- RefToken(Get(entity, key).value.s);
      Ok([token])
    else Ok([])
  }

  function Candidates(entity: Dict): Result<seq<string>> {
    var id :- Candidate(entity, ID);
    var contentId :- Candidate(entity, CONTENT_ID);
    Ok(id + contentId)
  }

  /** `_entity_agrees`: `false` is its assertion failing, an error any other exception. */
  function EntityAgrees(entity: Dict, uri: string): Result<bool> {
    var expected :- RefToken(uri);
    var candidates :- Candidates(entity);
    Ok(expected in candidates)
  }

  // --- execution bind --------------------------------------------------------------------------------

  predicate IsEntity(j: Json) {
    j.Obj? && NonBlank(Get(j.fields, ID))
  }

  function UsedList(bom: Dict): Result<seq<Json>> {
    match Get(bom, GENERATED_BY)
    case Some(Obj(activity)) =>
      (match Get(activity, USED)
       case Some(Obj(entity)) => Ok([Obj(entity)])
       case Some(Arr(items)) => Ok(items)
       case _ => Err("prov:used is not a list or object"))
    case _ => Err("BOM missing prov:wasGeneratedBy object")
  }

  /** `_used_entities`. */
  method UsedEntities(bom: Dict) returns (r: Result<seq<Dict>>)
    ensures r.Ok? <==> UsedList(bom).Ok? && forall i :: 0 <= i < |UsedList(bom).value| ==>
      IsEntity(UsedList(bom).value[i])
    ensures r.Ok? ==> Documents(r.value, UsedList(bom).value)
  {
    var entities := UsedList(bom);
    if entities.Err? {
      return Err(entities.message);
    }
    var out: seq<Dict> := [];
    for i := 0 to |entities.value|
      invariant |out| == i
      invariant forall k :: 0 <= k < i ==> IsEntity(entities.value[k]) && Obj(out[k]) == entities.value[k]
    {
      var entity := entities.value[i];
      if !IsEntity(entity) {
        return Err("prov:used entry is not an object with @id");
      }
      out := out + [entity.fields];
    }
    return Ok(out);
  }

  /** `_fetch_payload` returns. */
  predicate Fetches(entity: Dict, get: HttpGetJson, expected: Option<Json>) {
    && NonBlank(Get(entity, ID))
    && var uri := Strip(Get(entity, ID).value.s);
       && IsHttpUri(uri) && get(uri).Ok? && get(uri).value.Obj?
       && (expected.Some? ==> Same(get(uri).value, expected.value))
  }

  /** Python equality of JSON values: the order of keys does not count, and booleans are numbers. */
  predicate Same(a: Json, b: Json) {
    match a
    case Null => b.Null?
    case Bool(x) => b == a || b == Num(if x then 1 else 0)
    case Num(x) => b == a || (b.Bool? && x == if b.b then 1 else 0)
    case Str(_) => b == a
    case Arr(items) => b.Arr? && |items| == |b.items| && forall i :: 0 <= i < |items| ==> Same(items[i], b.items[i])
    case Obj(fields) =>
      && b.Obj? && |fields| == |b.fields|
      && forall i :: 0 <= i < |fields| ==>
        Has(b.fields, fields[i].key) && Same(fields[i].value, Get(b.fields, fields[i].key).value)
  }

  /** One entity agrees with its URI, and with its payload when that is fetched. */
  predicate Binds(entity: Dict, uri: string, get: Option<HttpGetJson>, expected: Option<Json>) {
    EntityAgrees(entity, uri) == Ok(true) && (get.Some? ==> Fetches(entity, get.value, expected))
  }

  function Binder(uri: string, get: Option<HttpGetJson>, expected: Option<Json>): Dict -> bool {
    e => Binds(e, uri, get, expected)
  }

  /** Entities whose first two members pass these tests. */
  predicate FirstTwo(used: seq<Json>, first: Dict -> bool, second: Dict -> bool) {
    && |used| >= 2 && (forall i :: 0 <= i < |used| ==> IsEntity(used[i]))
    && first(used[0].fields) && second(used[1].fields)
  }

  /** What `assert_execution_bind` is asked: the URIs, what to fetch with and what bodies to expect. */
  datatype BindRequest = BindRequest(
    orderUri: string, invoiceUri: string, get: Option<HttpGetJson>, order: Option<Json>, invoice: Option<Json>)

  /** No URI is blank, and expected bodies come with something to fetch them with. */
  predicate WellAsked(q: BindRequest) {
    Strip(q.orderUri) != [] && Strip(q.invoiceUri) != [] && (q.order.Some? || q.invoice.Some? ==> q.get.Some?)
  }

  /** `assert_execution_bind` returns: Order first, then the output Invoice. */
  predicate BindHolds(used: seq<Json>, q: BindRequest) {
    WellAsked(q) && FirstTwo(used, Binder(Strip(q.orderUri), q.get, q.order),
                             Binder(Strip(q.invoiceUri), q.get, q.invoice))
  }

  /** The entities, as the documents they are. */
  ghost predicate Documents(entities: seq<Dict>, used: seq<Json>) {
    |entities| == |used| && forall i :: 0 <= i < |used| ==> Obj(entities[i]) == used[i]
  }

  method AssertExecutionBind(bom: Dict, q: BindRequest) returns (r: Result<seq<Dict>>)
    ensures r.Ok? <==> UsedList(bom).Ok? && BindHolds(UsedList(bom).value, q)
    ensures r.Ok? ==> Documents(r.value, UsedList(bom).value)
  {
    if !WellAsked(q) {
      return Err("missing uri, or expected bodies without http_get_json");
    }
    r := BindFirstTwo(bom, Binder(Strip(q.orderUri), q.get, q.order), Binder(Strip(q.invoiceUri), q.get, q.invoice));
  }

  method BindFirstTwo(bom: Dict, first: Dict -> bool, second: Dict -> bool) returns (r: Result<seq<Dict>>)
    ensures r.Ok? <==> UsedList(bom).Ok? && FirstTwo(UsedList(bom).value, first, second)
    ensures r.Ok? ==> Documents(r.value, UsedList(bom).value)
  {
    var bind := UsedEntities(bom);
    if bind.Err? {
      return bind;
    }
    if |bind.value| < 2 {
      return Err("prov:used must cite Order then Invoice");
    }
    ghost var used := UsedList(bom).value;
    assert Obj(bind.value[0]) == used[0] && Obj(bind.value[1]) == used[1];
    if !first(bind.value[0]) || !second(bind.value[1]) {
      return Err("entity does not match");
    }
    return bind;
  }

  // --- as-executed bind ------------------------------------------------------------------------------

  /** `bom.get('stageLineage') or []`. */
  function LineageList(bom: Dict): Result<seq<Json>> {
    match Get(bom, STAGE_LINEAGE)
    case None => Ok([])
    case Some(j) => if !Truthy(j) then Ok([]) else if j.Arr? then Ok(j.items) else Err("stageLineage is not a list")
  }

  predicate IsDerived(entity: Dict) {
    match Get(entity, DERIVED_FROM) case Some(Obj(_)) => true case _ => false
  }

  /** The verdict of `_entity_agrees` on an entity. */
  type Judge = Dict -> Result<bool>

  function JudgeOf(uri: string): Judge {
    e => EntityAgrees(e, uri)
  }

  predicate Agrees(j: Json, judge: Judge) {
    j.Obj? && judge(j.fields) == Ok(true)
  }

  /** An entity that agrees and is derived from nothing. */
  predicate Observes(j: Json, judge: Judge) {
    Agrees(j, judge) && !IsDerived(j.fields)
  }

  /** Comparing raises something other than a failed assertion. */
  predicate Raises(j: Json, judge: Judge) {
    j.Obj? && judge(j.fields).Err?
  }

  ghost predicate NoneRaises(lineage: seq<Json>, judge: Judge) {
    forall k :: 0 <= k < |lineage| ==> !Raises(lineage[k], judge)
  }

  /** The last observation in a lineage. */
  ghost predicate LastObservation(lineage: seq<Json>, judge: Judge, i: nat) {
    i < |lineage| && Observes(lineage[i], judge) && forall k :: i < k < |lineage| ==> !Observes(lineage[k], judge)
  }

  /** The entities that agree with the URI, in order. */
  function Agreeing(lineage: seq<Json>, judge: Judge): seq<Dict> {
    if lineage == [] then []
    else
      var last := lineage[|lineage| - 1];
      Agreeing(lineage[..|lineage| - 1], judge) + if Agrees(last, judge) then [last.fields] else []
  }

  function Underived(entities: seq<Dict>): seq<Dict> {
    if entities == [] then []
    else
      var last := entities[|entities| - 1];
      Underived(entities[..|entities| - 1]) + if IsDerived(last) then [] else [last]
  }

  lemma UnderivedSnoc(entities: seq<Dict>, last: Dict)
    ensures Underived(entities + [last]) == Underived(entities) + if IsDerived(last) then [] else [last]
  {
    assert (entities + [last])[..|entities|] == entities;
  }

  /** The observations so far, one entity further. */
  lemma ObservationsSnoc(front: seq<Json>, last: Json, judge: Judge)
    ensures Underived(Agreeing(front + [last], judge))
         == Underived(Agreeing(front, judge)) + if Observes(last, judge) then [last.fields] else []
  {
    assert (front + [last])[..|front|] == front;
    if Agrees(last, judge) {
      UnderivedSnoc(Agreeing(front, judge), last.fields);
    } else {
      assert Agreeing(front + [last], judge) == Agreeing(front, judge);
    }
  }

  /** The last of the agreeing entities that are not derived is the last observation. */
  lemma {:induction false} LastIsObservation(lineage: seq<Json>, judge: Judge)
    ensures Observations(lineage, judge, Underived(Agreeing(lineage, judge)))
  {
    if lineage != [] {
      var front, last := lineage[..|lineage| - 1], lineage[|lineage| - 1];
      assert lineage == front + [last];
      LastIsObservation(front, judge);
      ObservationsSnoc(front, last, judge);
      var o := Underived(Agreeing(front, judge));
      if Observes(last, judge) {
        OneObservation(front, last, judge, o);
      } else {
        NoObservation(front, last, judge, o);
        assert o + [] == o;
      }
    }
  }

  /** What the observations so far say about the lineage so far. */
  ghost predicate Observations(lineage: seq<Json>, judge: Judge, o: seq<Dict>) {
    && (o == [] <==> forall k :: 0 <= k < |lineage| ==> !Observes(lineage[k], judge))
    && (o != [] ==> exists i: nat :: LastObservation(lineage, judge, i) && lineage[i] == Obj(o[|o| - 1]))
  }

  lemma OneObservation(front: seq<Json>, last: Json, judge: Judge, o: seq<Dict>)
    requires Observes(last, judge)
    ensures Observations(front + [last], judge, o + [last.fields])
  {
    var all := front + [last];
    assert all[|front|] == last && LastObservation(all, judge, |front|);
  }

  lemma NoObservation(front: seq<Json>, last: Json, judge: Judge, o: seq<Dict>)
    requires Observations(front, judge, o) && !Observes(last, judge)
    ensures Observations(front + [last], judge, o)
  {
    var all := front + [last];
    assert all[|front|] == last && forall k :: 0 <= k < |front| ==> all[k] == front[k];
    if o != [] {
      var i: nat :| LastObservation(front, judge, i) && front[i] == Obj(o[|o| - 1]);
      assert LastObservation(all, judge, i) && all[i] == front[i];
    }
  }

  /** The first pass of `_sae_lineage_entity`. */
  method CollectAgreeing(lineage: seq<Json>, judge: Judge) returns (r: Result<seq<Dict>>)
    ensures r.Ok? <==> NoneRaises(lineage, judge)
    ensures r.Ok? ==> r.value == Agreeing(lineage, judge)
  {
    var matches: seq<Dict> := [];
    for i := 0 to |lineage|
      invariant forall k :: 0 <= k < i ==> !Raises(lineage[k], judge)
      invariant matches == Agreeing(lineage[..i], judge)
    {
      assert lineage[..i + 1][..i] == lineage[..i];
      if Raises(lineage[i], judge) {
        return Err("not a content id");
      }
      if Agrees(lineage[i], judge) {
        matches := matches + [lineage[i].fields];
      }
    }
    assert lineage[..|lineage|] == lineage;
    return Ok(matches);
  }

  /** The second pass. */
  method KeepUnderived(matches: seq<Dict>) returns (observation: seq<Dict>)
    ensures observation == Underived(matches)
  {
    observation := [];
    for i := 0 to |matches|
      invariant observation == Underived(matches[..i])
    {
      assert matches[..i + 1] == matches[..i] + [matches[i]];
      UnderivedSnoc(matches[..i], matches[i]);
      if !IsDerived(matches[i]) {
        observation := observation + [matches[i]];
      }
    }
    assert matches[..|matches|] == matches;
  }

  /** `_sae_lineage_entity`, as a value. */
  ghost function SaeEntity(lineage: seq<Json>, judge: Judge): Result<Dict> {
    var observation := Underived(Agreeing(lineage, judge));
    if !NoneRaises(lineage, judge) then Err("not a content id")
    else if observation == [] then Err("no stageLineage observation agrees")
    else Ok(observation[|observation| - 1])
  }

  method SaeLineageEntity(lineage: seq<Json>, judge: Judge) returns (r: Result<Dict>)
    ensures r == SaeEntity(lineage, judge)
  {
    var matches := CollectAgreeing(lineage, judge);
    if matches.Err? {
      return Err("not a content id");
    }
    var observation := KeepUnderived(matches.value);
    if observation == [] {
      return Err("no stageLineage observation agrees");
    }
    return Ok(observation[|observation| - 1]);
  }

  /** What it returns is the last entity that agrees and is derived from nothing; it fails only when comparing raises
      or there is no such entity. */
  lemma SaeEntityIs(lineage: seq<Json>, judge: Judge)
    ensures SaeEntity(lineage, judge).Ok? <==>
      NoneRaises(lineage, judge) && exists i: nat :: LastObservation(lineage, judge, i)
    ensures forall i: nat :: NoneRaises(lineage, judge) && LastObservation(lineage, judge, i) ==>
      SaeEntity(lineage, judge) == Ok(lineage[i].fields)
  {
    LastIsObservation(lineage, judge);
    forall i: nat | NoneRaises(lineage, judge) && LastObservation(lineage, judge, i)
      ensures SaeEntity(lineage, judge) == Ok(lineage[i].fields)
    {
      var o := Underived(Agreeing(lineage, judge));
      var k: nat :| LastObservation(lineage, judge, k) && lineage[k] == Obj(o[|o| - 1]);
      OneLast(lineage, judge, i, k);
    }
  }

  lemma OneLast(lineage: seq<Json>, judge: Judge, i: nat, k: nat)
    requires LastObservation(lineage, judge, i) && LastObservation(lineage, judge, k)
    ensures i == k
  {
  }

  /** What `assert_structure_as_executed_bind` is asked. */
  datatype ObservationRequest = ObservationRequest(uri: string, get: Option<HttpGetJson>, expected: Option<Json>)

  /** The entity `assert_structure_as_executed_bind` returns. */
  ghost function AsExecuted(lineage: seq<Json>, q: ObservationRequest): Result<Dict> {
    if Strip(q.uri) == [] || (q.expected.Some? && q.get.None?) then Err("malformed request")
    else
      var entity :- SaeEntity(lineage, JudgeOf(Strip(q.uri)));
      if q.get.Some? && !Fetches(entity, q.get.value, q.expected) then Err("payload differs") else Ok(entity)
  }

  method AssertAsExecutedBind(bom: Dict, q: ObservationRequest) returns (r: Result<Dict>)
    ensures r.Ok? <==> LineageList(bom).Ok? && AsExecuted(LineageList(bom).value, q).Ok?
    ensures r.Ok? ==> r == AsExecuted(LineageList(bom).value, q)
  {
    if Strip(q.uri) == [] || (q.expected.Some? && q.get.None?) {
      return Err("malformed request");
    }
    var lineage :- LineageList(bom);
    r := SaeLineageEntity(lineage, JudgeOf(Strip(q.uri)));
    if r.Ok? && q.get.Some? && !Fetches(r.value, q.get.value, q.expected) {
      return Err("payload differs");
    }
  }

  // --- payload lineage -------------------------------------------------------------------------------

  function Items(j: Json): seq<Json> {
    if j.Arr? then j.items else [j]
  }

  /** The entries of a manifest, or the document itself. */
  function Fingerprint(j: Json): Json {
    if j.Obj? then (match Get(j.fields, "entries") case Some(Obj(entries)) => Obj(entries) case _ => j) else j
  }

  /** `_entries_fingerprints`: sorting the entries does not matter to the comparison. */
  predicate SameManifests(a: Json, b: Json) {
    && |Items(a)| == |Items(b)|
    && forall i :: 0 <= i < |Items(a)| ==> Same(Fingerprint(Items(a)[i]), Fingerprint(Items(b)[i]))
  }

  /** `assert_directory_manifest_equiv` passes. */
  predicate Equivalent(a: string, b: string, get: HttpGetJson) {
    && Strip(a) != [] && Strip(b) != []
    && (Strip(a) == Strip(b)
        || (get(Strip(a)).Ok? && get(Strip(b)).Ok? && SameManifests(get(Strip(a)).value, get(Strip(b)).value)))
  }

  /** What an entity contributes to the payload chain. */
  datatype Hop = Skip | Broken | Hop(entity: string, source: string)

  function HopOf(j: Json): Hop {
    if !j.Obj? then Skip
    else match Get(j.fields, DERIVED_FROM)
      case Some(Obj(derived)) =>
        if !NonBlank(Get(derived, ID)) || !NonBlank(Get(j.fields, ID)) then Broken
        else Hop(Strip(Get(j.fields, ID).value.s), Strip(Get(derived, ID).value.s))
      case _ => Skip
  }

  /** The hops hold up, coming from `prev`: the first compares an entity with its source, the others a source with the
      entity before. */
  predicate HopsHold(lineage: seq<Json>, prev: Option<string>, get: HttpGetJson) {
    if lineage == [] then true
    else match HopOf(lineage[0])
      case Skip => HopsHold(lineage[1..], prev, get)
      case Broken => false
      case Hop(entity, source) =>
        && (if prev.None? then Equivalent(entity, source, get) else Equivalent(source, prev.value, get))
        && HopsHold(lineage[1..], Some(entity), get)
  }

  /** `assert_stage_lineage_payload_equiv`. */
  method AssertStageLineage(bom: Dict, get: HttpGetJson) returns (passes: bool)
    ensures passes <==> LineageList(bom).Ok? && HopsHold(LineageList(bom).value, None, get)
  {
    var lineage := LineageList(bom);
    if lineage.Err? {
      return false;
    }
    var prev: Option<string> := None;
    var payloadIndex := 0;
    for i := 0 to |lineage.value|
      invariant payloadIndex >= 0 && (payloadIndex == 0 <==> prev.None?)
      invariant HopsHold(lineage.value, None, get) <==> HopsHold(lineage.value[i..], prev, get)
    {
      assert lineage.value[i..][1..] == lineage.value[i + 1..];
      match HopOf(lineage.value[i])
      case Skip =>
      case Broken =>
        return false;
      case Hop(entity, source) =>
        if payloadIndex == 0 {
          if !Equivalent(entity, source, get) {
            return false;
          }
        } else if prev.Some? {
          if !Equivalent(source, prev.value, get) {
            return false;
          }
        }
        prev := Some(entity);
        payloadIndex := payloadIndex + 1;
    }
    return true;
  }
}
