/** The execution BOM and its builder (cats/network/feedback/envelope.py). */
module ExecutionBom {
  import opened ContentRef
  import opened Digest
  import opened Json
  import opened Text
  import opened Wrappers

  const ID := "@id"
  const CONTENT_ID := "contentId"
  const TYPE := "@type"
  const GENERATED_BY := "prov:wasGeneratedBy"
  const DERIVED_FROM := "prov:wasDerivedFrom"
  const USED := "prov:used"
  const STAGE_LINEAGE := "stageLineage"
  const IPFS := "ipfs://"
  const EXECUTOR_RUN_ID := "#executorRun"

  const CONTEXT: Json := Arr([
    Str("https://www.w3.org/ns/prov#"),
    Obj([Field("cats", Str("https://dynamicalsystemsgroup.github.io/cats/ns#")),
         Field("invoice_uri", Str("cats:invoice_uri")),
         Field("log_uri", Str("cats:log_uri")), Field("node_did", Str("cats:node_did")),
         Field("stageLineage", Str("cats:stageLineage")), Field("contentId", Str("cats:contentId"))])])

  /** A content id, perhaps absent or empty, with an optional locator. */
  datatype Ref = Ref(id: Option<string>, uri: Option<string>)

  predicate Present(r: Ref) {
    r.id.Some? && r.id.value != []
  }

  const ABSENT: Ref := Ref(None, None)

  datatype BomArgs = BomArgs(
    log: string, logUri: Option<string>, invoice: string, invoiceUri: Option<string>, nodeDid: Option<string>,
    order: Ref, input: Ref, ingress: Ref, integration: Ref, data: Ref, asExecuted: Ref)

  /** `content_uri`. */
  function ContentUri(id: string, base: string): Result<Option<string>> {
    if id != [] && IsNiOrDigest(Strip(id)) then
      var hex :- FromNi(Strip(id));
      var uri :- CasLdpUri(hex, base);
      Ok(Some(uri))
    else Ok(None)
  }

  /** `uri or content_uri(id)`. */
  function ResolvedUri(id: string, uri: Option<string>, base: string): Result<Option<string>> {
    if uri.Some? && uri.value != [] then Ok(uri) else ContentUri(id, base)
  }

  /** The HTTP locator of an entity, when it has one. */
  function HttpLocator(id: string, uri: Option<string>, base: string): Result<Option<string>> {
    var resolved :- if uri.Some? then Ok(uri) else ContentUri(id, base);
    Ok(if resolved.Some? && resolved.value != [] && IsHttpUri(resolved.value) then resolved else None)
  }

  /** The `@id` of an entity. */
  function AtId(id: string, uri: Option<string>, base: string): Result<string> {
    var http :- HttpLocator(id, uri, base);
    Ok(if http.Some? then http.value else if IsHttpUri(id) then id else IPFS + id)
  }

  /** `_entity_id`. */
  function EntityId(id: string, uri: Option<string>, base: string): Result<Dict> {
    var http :- HttpLocator(id, uri, base);
    var at :- AtId(id, uri, base);
    Ok([Field(ID, Str(at))] + if http.Some? then [Field(CONTENT_ID, Str(id))] else [])
  }

  /** `_stage_entity`. */
  function StageEntity(id: string, uri: Option<string>, source: Ref, base: string): Result<Dict> {
    var entity :- EntityId(id, uri, base);
    var derived :- Derivation(source, base);
    Ok(entity + [Field(TYPE, Str("prov:Entity")), Field(GENERATED_BY, Obj([Field(ID, Str(EXECUTOR_RUN_ID))]))]
       + derived)
  }

  function Derivation(source: Ref, base: string): Result<Dict> {
    if Present(source) then
      var from :- EntityId(source.id.value, source.uri, base);
      Ok([Field(DERIVED_FROM, Obj(from))])
    else Ok([])
  }

  /** One stage of the lineage, when it is there. */
  function Stage(r: Ref, source: Ref, base: string): Result<seq<Json>> {
    if Present(r) then
      var entity :- StageEntity(r.id.value, r.uri, source, base);
      Ok([Obj(entity)])
    else Ok([])
  }

  function Lineage(a: BomArgs, base: string): Result<seq<Json>> {
    var s1 :- Stage(a.ingress, a.input, base);
    var s2 :- Stage(a.integration, a.ingress, base);
    var s3 :- Stage(a.data, a.integration, base);
    var s4 :- Stage(a.asExecuted, ABSENT, base);
    Ok(s1 + s2 + s3 + s4)
  }

  function UsedOrder(a: BomArgs, base: string): Result<seq<Json>> {
    if Present(a.order) then
      var entity :- EntityId(a.order.id.value, a.order.uri, base);
      Ok([Obj(entity)])
    else Ok([])
  }

  function Used(a: BomArgs, base: string): Result<seq<Json>> {
    var resolved :- ResolvedUri(a.invoice, a.invoiceUri, base);
    var order :- UsedOrder(a, base);
    var invoice :- EntityId(a.invoice, resolved, base);
    Ok(order + [Obj(invoice)])
  }

  function Activity(used: seq<Json>): Dict {
    [Field(ID, Str(EXECUTOR_RUN_ID)), Field(TYPE, Str("prov:Activity")),
     Field(USED, if |used| == 1 then used[0] else Arr(used))]
  }

  function UriText(resolved: Option<string>, id: string): Json {
    Str(if resolved.Some? && resolved.value != [] then resolved.value else id)
  }

  function Head(a: BomArgs, used: seq<Json>, invoiceUri: Option<string>, logUri: Option<string>): Dict {
    [Field("@context", CONTEXT), Field(TYPE, Arr([Str("prov:Entity"), Str("cats:ExecutionBom")])),
     Field(GENERATED_BY, Obj(Activity(used))),
     Field("invoice_uri", UriText(invoiceUri, a.invoice)), Field("log_uri", UriText(logUri, a.log))]
    + if a.nodeDid.Some? then
        [Field("node_did", Str(a.nodeDid.value)), Field("prov:wasAttributedTo", Obj([Field(ID, Str(a.nodeDid.value))]))]
      else []
  }

  /** `build_execution_bom`, as a value. */
  function Bom(a: BomArgs, base: string): Result<Dict> {
    var invoiceUri :- ResolvedUri(a.invoice, a.invoiceUri, base);
    var logUri :- ResolvedUri(a.log, a.logUri, base);
    var used :- Used(a, base);
    var lineage :- Lineage(a, base);
    Ok(Head(a, used, invoiceUri, logUri) + if lineage != [] then [Field(STAGE_LINEAGE, Arr(lineage))] else [])
  }

  /** `build_execution_bom`: `used` and `lineage` are appended to, the BOM is filled. */
  method BuildExecutionBom(a: BomArgs, base: string) returns (r: Result<Dict>)
    ensures r.Ok? <==> Bom(a, base).Ok?
    ensures r.Ok? ==> r == Bom(a, base)
  {
    var invoiceUri :- ResolvedUri(a.invoice, a.invoiceUri, base);
    var logUri :- ResolvedUri(a.log, a.logUri, base);
    var used: seq<Json> := [];
    if Present(a.order) {
      var entity :- EntityId(a.order.id.value, a.order.uri, base);
      used := used + [Obj(entity)];
      assert used == [Obj(entity)];
    }
    assert UsedOrder(a, base) == Ok(used);
    var invoice :- EntityId(a.invoice, invoiceUri, base);
    UsedIs(a, base, used, invoiceUri, invoice);
    used := used + [Obj(invoice)];
    var bom := Head(a, used, invoiceUri, logUri);
    var lineage := AppendStages(a, base);
    if lineage.Err? {
      return Err(lineage.message);
    }
    if lineage.value != [] {
      bom := bom + [Field(STAGE_LINEAGE, Arr(lineage.value))];
    } else {
      assert bom + [] == bom;
    }
    return Ok(bom);
  }

  lemma UsedIs(a: BomArgs, base: string, order: seq<Json>, resolved: Option<string>, invoice: Dict)
    requires UsedOrder(a, base) == Ok(order) && ResolvedUri(a.invoice, a.invoiceUri, base) == Ok(resolved)
    requires EntityId(a.invoice, resolved, base) == Ok(invoice)
    ensures Used(a, base) == Ok(order + [Obj(invoice)])
  {
  }

  /** The stages are appended in order. */
  method AppendStages(a: BomArgs, base: string) returns (r: Result<seq<Json>>)
    ensures r.Ok? <==> Lineage(a, base).Ok?
    ensures r.Ok? ==> r == Lineage(a, base)
  {
    var lineage: seq<Json> := [];
    lineage :- AppendStage(lineage, a.ingress, a.input, base);
    lineage :- AppendStage(lineage, a.integration, a.ingress, base);
    lineage :- AppendStage(lineage, a.data, a.integration, base);
    lineage :- AppendStage(lineage, a.asExecuted, ABSENT, base);
    assert lineage == Stage(a.ingress, a.input, base).value + Stage(a.integration, a.ingress, base).value
      + Stage(a.data, a.integration, base).value + Stage(a.asExecuted, ABSENT, base).value;
    return Ok(lineage);
  }

  method AppendStage(lineage: seq<Json>, stage: Ref, source: Ref, base: string) returns (r: Result<seq<Json>>)
    ensures r.Ok? <==> Stage(stage, source, base).Ok?
    ensures r.Ok? ==> r.value == lineage + Stage(stage, source, base).value
  {
    if !Present(stage) {
      return Ok(lineage);
    }
    var entity :- StageEntity(stage.id.value, stage.uri, source, base);
    return Ok(lineage + [Obj(entity)]);
  }
}
