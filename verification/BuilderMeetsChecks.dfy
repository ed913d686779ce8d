/** What the BOM builder produces against what the assertions accept. */
module BuilderMeetsChecks {
  import opened BomChecks
  import opened Codec
  import opened ContentRef
  import opened Digest
  import opened ExecutionBom
  import opened Json
  import opened Text
  import opened Wrappers

  // --- reading what was built ------------------------------------------------------------------------

  lemma Keys()
    ensures CONTENT_ID != ID && TYPE != ID && GENERATED_BY != ID && DERIVED_FROM != ID
    ensures TYPE != CONTENT_ID && GENERATED_BY != CONTENT_ID && DERIVED_FROM != CONTENT_ID
    ensures TYPE != DERIVED_FROM && GENERATED_BY != DERIVED_FROM && USED != ID && USED != TYPE
    ensures TYPE != GENERATED_BY && TYPE != STAGE_LINEAGE && GENERATED_BY != STAGE_LINEAGE
  {
    assert ID[1] == 'i' && TYPE[1] == 't' && CONTENT_ID[0] == 'c' && STAGE_LINEAGE[0] == 's';
    assert GENERATED_BY[8] == 'G' && DERIVED_FROM[8] == 'D' && USED[5] == 'u';
  }

  lemma {:induction false} GetConcat(a: Dict, b: Dict, k: string)
    ensures Get(a + b, k) == if Has(a, k) then Get(a, k) else Get(b, k)
  {
    if a == [] {
      assert a + b == b;
    } else {
      assert (a + b)[1..] == a[1..] + b;
      GetConcat(a[1..], b, k);
    }
  }

  lemma GetOne(k: string, v: Json, j: string)
    ensures Get([Field(k, v)], j) == if j == k then Some(v) else None
  {
  }

  lemma EntityGet(id: string, uri: Option<string>, base: string)
    requires EntityId(id, uri, base).Ok?
    ensures HttpLocator(id, uri, base).Ok? && AtId(id, uri, base).Ok?
    ensures var e := EntityId(id, uri, base).value;
      && Get(e, ID) == Some(Str(AtId(id, uri, base).value))
      && Get(e, CONTENT_ID) == (if HttpLocator(id, uri, base).value.Some? then Some(Str(id)) else None)
      && Get(e, DERIVED_FROM) == None
  {
    Keys();
    var at := Str(AtId(id, uri, base).value);
    var tail := if HttpLocator(id, uri, base).value.Some? then [Field(CONTENT_ID, Str(id))] else [];
    forall k ensures Get([Field(ID, at)] + tail, k) == if k == ID then Some(at) else Get(tail, k) {
      GetConcat([Field(ID, at)], tail, k);
      GetOne(ID, at, k);
    }
    GetOne(CONTENT_ID, Str(id), CONTENT_ID);
    GetOne(CONTENT_ID, Str(id), DERIVED_FROM);
  }

  /** The fields a stage entity adds to its identity. */
  lemma StageTail(derived: Dict, k: string)
    ensures var t := [Field(TYPE, Str("prov:Entity")), Field(GENERATED_BY, Obj([Field(ID, Str(EXECUTOR_RUN_ID))]))];
      k != TYPE && k != GENERATED_BY ==> Get(t + derived, k) == Get(derived, k)
  {
    var g := Field(GENERATED_BY, Obj([Field(ID, Str(EXECUTOR_RUN_ID))]));
    var t := [Field(TYPE, Str("prov:Entity")), g];
    GetConcat(t, derived, k);
    assert t[1..] == [g];
    GetOne(GENERATED_BY, g.value, k);
  }

  lemma StageGet(id: string, uri: Option<string>, source: Ref, base: string)
    requires StageEntity(id, uri, source, base).Ok?
    ensures EntityId(id, uri, base).Ok? && (Present(source) ==> EntityId(source.id.value, source.uri, base).Ok?)
    ensures var (e, s) := (EntityId(id, uri, base).value, StageEntity(id, uri, source, base).value);
      && Get(s, ID) == Get(e, ID) && Get(s, CONTENT_ID) == Get(e, CONTENT_ID)
      && Get(s, DERIVED_FROM)
         == if Present(source) then Some(Obj(EntityId(source.id.value, source.uri, base).value)) else None
  {
    Keys();
    EntityGet(id, uri, base);
    var e := EntityId(id, uri, base).value;
    var derived := Derivation(source, base).value;
    var t := [Field(TYPE, Str("prov:Entity")), Field(GENERATED_BY, Obj([Field(ID, Str(EXECUTOR_RUN_ID))]))];
    assert StageEntity(id, uri, source, base).value == e + (t + derived);
    forall k | k == ID || k == CONTENT_ID || k == DERIVED_FROM
      ensures Get(e + (t + derived), k) == if Has(e, k) then Get(e, k) else Get(derived, k)
    {
      GetConcat(e, t + derived, k);
      StageTail(derived, k);
    }
    if Present(source) {
      forall k ensures Get(derived, k) == if k == DERIVED_FROM then Some(derived[0].value) else None {
        GetOne(DERIVED_FROM, derived[0].value, k);
      }
    }
  }

  /** The `@id` of a stage or of its source. */
  function At(r: Ref, base: string): string
    requires Present(r) && AtId(r.id.value, r.uri, base).Ok?
  {
    AtId(r.id.value, r.uri, base).value
  }

  lemma {:induction false} RStripFirst(s: string)
    requires s != [] && !IsSpace(s[0])
    ensures RStrip(s) != []
  {
    if IsSpace(s[|s| - 1]) {
      RStripFirst(s[..|s| - 1]);
    }
  }

  /** An `@id` is never blank. */
  lemma AtIdNonBlank(id: string, uri: Option<string>, base: string)
    requires AtId(id, uri, base).Ok?
    ensures Strip(AtId(id, uri, base).value) != []
  {
    var at := AtId(id, uri, base).value;
    if !IsHttpUri(at) {
      assert at[0] == IPFS[0];
      RStripFirst(at);
    }
  }

  lemma HeadGet(a: BomArgs, used: seq<Json>, invoiceUri: Option<string>, logUri: Option<string>)
    ensures Get(Head(a, used, invoiceUri, logUri), GENERATED_BY) == Some(Obj(Activity(used)))
    ensures !Has(Head(a, used, invoiceUri, logUri), STAGE_LINEAGE)
  {
    Keys();
    var front := [Field("@context", CONTEXT), Field(TYPE, Arr([Str("prov:Entity"), Str("cats:ExecutionBom")])),
                  Field(GENERATED_BY, Obj(Activity(used)))];
    var uris := [Field("invoice_uri", UriText(invoiceUri, a.invoice)), Field("log_uri", UriText(logUri, a.log))];
    var did := if a.nodeDid.Some? then
        [Field("node_did", Str(a.nodeDid.value)), Field("prov:wasAttributedTo", Obj([Field(ID, Str(a.nodeDid.value))]))]
      else [];
    assert Head(a, used, invoiceUri, logUri) == front + (uris + did);
    FrontGet(used);
    TailGet(uris, did);
    GetConcat(front, uris + did, GENERATED_BY);
    GetConcat(front, uris + did, STAGE_LINEAGE);
  }

  lemma FrontGet(used: seq<Json>)
    ensures var front := [Field("@context", CONTEXT), Field(TYPE, Arr([Str("prov:Entity"), Str("cats:ExecutionBom")])),
                  Field(GENERATED_BY, Obj(Activity(used)))];
      Get(front, GENERATED_BY) == Some(Obj(Activity(used))) && !Has(front, STAGE_LINEAGE)
  {
    Keys();
    var v := Obj(Activity(used));
    var types := Arr([Str("prov:Entity"), Str("cats:ExecutionBom")]);
    var front := [Field("@context", CONTEXT), Field(TYPE, types), Field(GENERATED_BY, v)];
    assert front == [Field("@context", CONTEXT)] + ([Field(TYPE, types)] + [Field(GENERATED_BY, v)]);
    assert "@context"[0] == '@' && GENERATED_BY[0] == 'p' && STAGE_LINEAGE[0] == 's';
    forall k | k == GENERATED_BY || k == STAGE_LINEAGE
      ensures Get(front, k) == if k == GENERATED_BY then Some(v) else None
    {
      GetConcat([Field("@context", CONTEXT)], [Field(TYPE, types)] + [Field(GENERATED_BY, v)], k);
      GetConcat([Field(TYPE, types)], [Field(GENERATED_BY, v)], k);
      GetOne("@context", CONTEXT, k);
      GetOne(TYPE, types, k);
      GetOne(GENERATED_BY, v, k);
    }
  }

  lemma TailGet(uris: Dict, did: Dict)
    requires |uris| == 2 && uris[0].key == "invoice_uri" && uris[1].key == "log_uri"
    requires did == [] || (|did| == 2 && did[0].key == "node_did" && did[1].key == "prov:wasAttributedTo")
    ensures !Has(uris + did, STAGE_LINEAGE)
  {
    assert "invoice_uri"[0] == 'i' && "log_uri"[0] == 'l' && "node_did"[0] == 'n' && "prov:wasAttributedTo"[0] == 'p';
    assert STAGE_LINEAGE[0] == 's';
    GetConcat(uris, did, STAGE_LINEAGE);
    TwoLack(uris, STAGE_LINEAGE);
    if did != [] {
      TwoLack(did, STAGE_LINEAGE);
    }
  }

  lemma TwoLack(d: Dict, k: string)
    requires |d| == 2 && d[0].key != k && d[1].key != k
    ensures !Has(d, k)
  {
    assert d == [d[0]] + [d[1]];
    GetConcat([d[0]], [d[1]], k);
  }

  /** The lists the assertions look at are those the builder filled. */
  lemma BomLists(a: BomArgs, base: string)
    requires Bom(a, base).Ok?
    ensures Used(a, base).Ok? && Lineage(a, base).Ok?
    ensures UsedList(Bom(a, base).value) == Used(a, base) && LineageList(Bom(a, base).value) == Lineage(a, base)
  {
    var (used, lineage) := (Used(a, base).value, Lineage(a, base).value);
    var (invoiceUri, logUri) := (ResolvedUri(a.invoice, a.invoiceUri, base).value,
                                 ResolvedUri(a.log, a.logUri, base).value);
    var head := Head(a, used, invoiceUri, logUri);
    var tail := if lineage != [] then [Field(STAGE_LINEAGE, Arr(lineage))] else [];
    HeadGet(a, used, invoiceUri, logUri);
    GetConcat(head, tail, GENERATED_BY);
    GetConcat(head, tail, STAGE_LINEAGE);
    GetOne(STAGE_LINEAGE, Arr(lineage), STAGE_LINEAGE);
    UsedShape(a, base);
    UsedOf(head + tail, used);
    LineageOf(head + tail, lineage);
  }

  lemma UsedOf(bom: Dict, used: seq<Json>)
    requires Get(bom, GENERATED_BY) == Some(Obj(Activity(used))) && (|used| == 1 ==> used[0].Obj?)
    ensures UsedList(bom) == Ok(used)
  {
    ActivityGet(used);
    if |used| == 1 {
      assert [used[0]] == used;
    }
  }

  lemma LineageOf(bom: Dict, lineage: seq<Json>)
    requires Get(bom, STAGE_LINEAGE) == if lineage != [] then Some(Arr(lineage)) else None
    ensures LineageList(bom) == Ok(lineage)
  {
  }

  lemma ActivityGet(used: seq<Json>)
    ensures Get(Activity(used), USED) == Some(if |used| == 1 then used[0] else Arr(used))
  {
    Keys();
    var v := if |used| == 1 then used[0] else Arr(used);
    var t := [Field(TYPE, Str("prov:Activity"))];
    assert Activity(used) == [Field(ID, Str(EXECUTOR_RUN_ID))] + (t + [Field(USED, v)]);
    GetConcat([Field(ID, Str(EXECUTOR_RUN_ID))], t + [Field(USED, v)], USED);
    GetConcat(t, [Field(USED, v)], USED);
    GetOne(ID, Str(EXECUTOR_RUN_ID), USED);
    GetOne(TYPE, Str("prov:Activity"), USED);
    GetOne(USED, v, USED);
  }

  /** The output Invoice comes last, after the Order if there is one. */
  lemma UsedShape(a: BomArgs, base: string)
    requires Used(a, base).Ok?
    ensures ResolvedUri(a.invoice, a.invoiceUri, base).Ok?
    ensures var invoice := EntityId(a.invoice, ResolvedUri(a.invoice, a.invoiceUri, base).value, base);
      && invoice.Ok?
      && (Present(a.order) ==>
            var order := EntityId(a.order.id.value, a.order.uri, base);
            order.Ok? && Used(a, base).value == [Obj(order.value), Obj(invoice.value)])
      && (!Present(a.order) ==> Used(a, base).value == [Obj(invoice.value)])
  {
  }

  // --- payload lineage -------------------------------------------------------------------------------

  /** What a stage contributes to the payload chain: nothing unless it is derived from a source. */
  lemma StageHop(r: Ref, source: Ref, base: string)
    requires Present(r) && Stage(r, source, base).Ok?
    ensures AtId(r.id.value, r.uri, base).Ok? && (Present(source) ==> AtId(source.id.value, source.uri, base).Ok?)
    ensures |Stage(r, source, base).value| == 1
    ensures HopOf(Stage(r, source, base).value[0])
         == if Present(source) then Hop(Strip(At(r, base)), Strip(At(source, base))) else Skip
  {
    StageGet(r.id.value, r.uri, source, base);
    EntityGet(r.id.value, r.uri, base);
    AtIdNonBlank(r.id.value, r.uri, base);
    if Present(source) {
      EntityGet(source.id.value, source.uri, base);
      AtIdNonBlank(source.id.value, source.uri, base);
    }
  }

  /** The chain from a hop on. */
  predicate HopsFrom(h: Hop, rest: seq<Json>, prev: Option<string>, get: HttpGetJson) {
    match h
    case Skip => HopsHold(rest, prev, get)
    case Broken => false
    case Hop(entity, source) =>
      && (if prev.None? then Equivalent(entity, source, get) else Equivalent(source, prev.value, get))
      && HopsHold(rest, Some(entity), get)
  }

  lemma HopsCons(j: Json, rest: seq<Json>, prev: Option<string>, get: HttpGetJson)
    ensures HopsHold([j] + rest, prev, get) == HopsFrom(HopOf(j), rest, prev, get)
  {
    assert ([j] + rest)[1..] == rest;
  }

  lemma Itself(uri: string, get: HttpGetJson)
    requires uri != [] && Strip(uri) == uri
    ensures Equivalent(uri, uri, get)
  {
  }

  /** The chain from a stage on, once the chain has begun at its source: nothing more is compared with anything else. */
  lemma StageInChain(r: Ref, source: Ref, base: string, rest: seq<Json>, get: HttpGetJson)
    requires Present(source) && Stage(r, source, base).Ok? && AtId(source.id.value, source.uri, base).Ok?
    ensures Present(r) ==> AtId(r.id.value, r.uri, base).Ok?
    ensures HopsHold(Stage(r, source, base).value + rest, Some(Strip(At(source, base))), get)
         == HopsHold(rest, Some(Strip(At(if Present(r) then r else source, base))), get)
  {
    if Present(r) {
      StageHop(r, source, base);
      HopsCons(Stage(r, source, base).value[0], rest, Some(Strip(At(source, base))), get);
      assert Stage(r, source, base).value == [Stage(r, source, base).value[0]];
      AtIdNonBlank(source.id.value, source.uri, base);
      StripTrims(At(source, base));
      Itself(Strip(At(source, base)), get);
    } else {
      assert [] + rest == rest;
    }
  }

  /** A stage before the chain has begun. */
  lemma StageBeforeChain(r: Ref, source: Ref, base: string, rest: seq<Json>, get: HttpGetJson)
    requires Stage(r, source, base).Ok?
    ensures Present(r) ==> AtId(r.id.value, r.uri, base).Ok?
    ensures Present(r) && Present(source) ==> AtId(source.id.value, source.uri, base).Ok?
    ensures HopsHold(Stage(r, source, base).value + rest, None, get) ==
      if Present(r) && Present(source)
      then Equivalent(At(r, base), At(source, base), get) && HopsHold(rest, Some(Strip(At(r, base))), get)
      else HopsHold(rest, None, get)
  {
    if Present(r) {
      StageHop(r, source, base);
      HopsCons(Stage(r, source, base).value[0], rest, None, get);
      assert Stage(r, source, base).value == [Stage(r, source, base).value[0]];
      StripTrims(At(r, base));
      if Present(source) {
        StripTrims(At(source, base));
      }
    } else {
      assert [] + rest == rest;
    }
  }

  /** A stage without a source is passed over. */
  lemma StageAlone(r: Ref, base: string, prev: Option<string>, get: HttpGetJson)
    requires Stage(r, ABSENT, base).Ok?
    ensures HopsHold(Stage(r, ABSENT, base).value, prev, get)
  {
    if Present(r) {
      StageHop(r, ABSENT, base);
      HopsCons(Stage(r, ABSENT, base).value[0], [], prev, get);
      assert Stage(r, ABSENT, base).value == [Stage(r, ABSENT, base).value[0]] + [];
    }
  }

  /** What the payload check comes down to: the first stage that has a source must be equivalent to it. */
  predicate FirstStageEquivalent(a: BomArgs, base: string, get: HttpGetJson)
    requires Lineage(a, base).Ok?
  {
    if Present(a.ingress) && Present(a.input) then SameContent(a.ingress, a.input, base, get)
    else if Present(a.integration) && Present(a.ingress) then SameContent(a.integration, a.ingress, base, get)
    else if Present(a.data) && Present(a.integration) then SameContent(a.data, a.integration, base, get)
    else true
  }

  /** The same URI, or manifests with the same entries. */
  predicate SameContent(r: Ref, source: Ref, base: string, get: HttpGetJson)
    requires Present(r) && Present(source)
  {
    && AtId(r.id.value, r.uri, base).Ok? && AtId(source.id.value, source.uri, base).Ok?
    && Equivalent(At(r, base), At(source, base), get)
  }

  /** The builder's output passes the payload check if and only if its first stage with a source is equivalent to that
      source. With input and ingress present this is ingress against input; the later hops never fail. */
  lemma StageLineageIff(a: BomArgs, base: string, get: HttpGetJson)
    requires Bom(a, base).Ok?
    ensures LineageList(Bom(a, base).value).Ok? && Lineage(a, base).Ok?
    ensures HopsHold(LineageList(Bom(a, base).value).value, None, get) <==> FirstStageEquivalent(a, base, get)
  {
    BomLists(a, base);
    HopsOfLineage(a, base, get);
  }

  lemma HopsOfLineage(a: BomArgs, base: string, get: HttpGetJson)
    requires Lineage(a, base).Ok?
    ensures HopsHold(Lineage(a, base).value, None, get) <==> FirstStageEquivalent(a, base, get)
  {
    var s1, s2 := Stage(a.ingress, a.input, base).value, Stage(a.integration, a.ingress, base).value;
    var s3, s4 := Stage(a.data, a.integration, base).value, Stage(a.asExecuted, ABSENT, base).value;
    assert Lineage(a, base).value == s1 + (s2 + (s3 + s4));
    StageBeforeChain(a.ingress, a.input, base, s2 + (s3 + s4), get);
    StageBeforeChain(a.integration, a.ingress, base, s3 + s4, get);
    StageBeforeChain(a.data, a.integration, base, s4, get);
    ChainBegun(a.ingress, a.integration, a.data, a.asExecuted, base, get);
    LastHop(a.integration, a.data, a.asExecuted, base, get);
    StageAlone(a.asExecuted, base, None, get);
    if Present(a.data) {
      StageAlone(a.asExecuted, base, Some(Strip(At(a.data, base))), get);
    }
  }

  /** The rest of the chain after the ingress hop. */
  lemma ChainBegun(ingress: Ref, integration: Ref, data: Ref, asExecuted: Ref, base: string, get: HttpGetJson)
    requires Stage(integration, ingress, base).Ok? && Stage(data, integration, base).Ok?
      && Stage(asExecuted, ABSENT, base).Ok?
    ensures Present(ingress) && AtId(ingress.id.value, ingress.uri, base).Ok? ==>
      HopsHold(Stage(integration, ingress, base).value
               + (Stage(data, integration, base).value + Stage(asExecuted, ABSENT, base).value),
               Some(Strip(At(ingress, base))), get)
  {
    if Present(ingress) && AtId(ingress.id.value, ingress.uri, base).Ok? {
      var s3, s4 := Stage(data, integration, base).value, Stage(asExecuted, ABSENT, base).value;
      StageInChain(integration, ingress, base, s3 + s4, get);
      if Present(integration) {
        LastHop(integration, data, asExecuted, base, get);
      } else {
        NoSource(data, integration, base, s4, Some(Strip(At(ingress, base))), get);
        StageAlone(asExecuted, base, Some(Strip(At(ingress, base))), get);
      }
    }
  }

  /** The rest of the chain after the integration hop. */
  lemma LastHop(integration: Ref, data: Ref, asExecuted: Ref, base: string, get: HttpGetJson)
    requires Stage(data, integration, base).Ok? && Stage(asExecuted, ABSENT, base).Ok?
    ensures Present(integration) && AtId(integration.id.value, integration.uri, base).Ok? ==>
      HopsHold(Stage(data, integration, base).value + Stage(asExecuted, ABSENT, base).value,
               Some(Strip(At(integration, base))), get)
  {
    if Present(integration) && AtId(integration.id.value, integration.uri, base).Ok? {
      var s4 := Stage(asExecuted, ABSENT, base).value;
      StageInChain(data, integration, base, s4, get);
      StageAlone(asExecuted, base, Some(Strip(At(if Present(data) then data else integration, base))), get);
    }
  }

  lemma NoSource(r: Ref, source: Ref, base: string, rest: seq<Json>, prev: Option<string>, get: HttpGetJson)
    requires Stage(r, source, base).Ok? && !Present(source)
    ensures HopsHold(Stage(r, source, base).value + rest, prev, get) == HopsHold(rest, prev, get)
  {
    if Present(r) {
      StageHop(r, source, base);
      HopsCons(Stage(r, source, base).value[0], rest, prev, get);
      assert Stage(r, source, base).value == [Stage(r, source, base).value[0]];
    } else {
      assert [] + rest == rest;
    }
  }

  // --- execution bind --------------------------------------------------------------------------------

  /** A URI or id that an entity agrees with: it has the token of the entity's locator or, when the entity carries its
      content id, of that id. */
  ghost predicate Denotes(u: string, id: string, uri: Option<string>, base: string)
    requires AtId(id, uri, base).Ok? && HttpLocator(id, uri, base).Ok?
  {
    var carried := HttpLocator(id, uri, base).value.Some? && Strip(id) != [];
    && RefToken(u).Ok? && RefToken(AtId(id, uri, base).value).Ok? && (carried ==> RefToken(id).Ok?)
    && (RefToken(u) == RefToken(AtId(id, uri, base).value) || (carried && RefToken(u) == RefToken(id)))
  }

  lemma AgreesIff(e: Dict, id: string, uri: Option<string>, base: string, u: string)
    requires EntityId(id, uri, base).Ok?
    requires Get(e, ID) == Get(EntityId(id, uri, base).value, ID)
      && Get(e, CONTENT_ID) == Get(EntityId(id, uri, base).value, CONTENT_ID)
    ensures HttpLocator(id, uri, base).Ok? && AtId(id, uri, base).Ok?
    ensures EntityAgrees(e, u) == Ok(true) <==> Denotes(u, id, uri, base)
    ensures RefToken(u).Ok? && RefToken(AtId(id, uri, base).value).Ok? && RefToken(id).Ok? ==> EntityAgrees(e, u).Ok?
  {
    EntityGet(id, uri, base);
    AtIdNonBlank(id, uri, base);
    TokensOf(e, id, AtId(id, uri, base).value, HttpLocator(id, uri, base).value.Some?);
  }

  lemma TokensOf(e: Dict, id: string, at: string, carried: bool)
    requires Get(e, ID) == Some(Str(at)) && Strip(at) != []
    requires Get(e, CONTENT_ID) == if carried then Some(Str(id)) else None
    ensures Candidate(e, ID).Ok? == RefToken(at).Ok?
      && (RefToken(at).Ok? ==> Candidate(e, ID).value == [RefToken(at).value])
    ensures !(carried && Strip(id) != []) ==> Candidate(e, CONTENT_ID) == Ok([])
    ensures carried && Strip(id) != [] ==>
      Candidate(e, CONTENT_ID).Ok? == RefToken(id).Ok?
        && (RefToken(id).Ok? ==> Candidate(e, CONTENT_ID).value == [RefToken(id).value])
  {
  }

  /** What fetching an entity must give. */
  ghost predicate PayloadAt(at: string, get: Option<HttpGetJson>, expected: Option<Json>) {
    get.Some? ==>
      && IsHttpUri(Strip(at)) && get.value(Strip(at)).Ok? && get.value(Strip(at)).value.Obj?
      && (expected.Some? ==> Same(get.value(Strip(at)).value, expected.value))
  }

  ghost predicate BoundTo(id: string, uri: Option<string>, base: string, u: string, get: Option<HttpGetJson>,
                          expected: Option<Json>)
    requires AtId(id, uri, base).Ok? && HttpLocator(id, uri, base).Ok?
  {
    Denotes(u, id, uri, base) && PayloadAt(AtId(id, uri, base).value, get, expected)
  }

  lemma BindsIff(id: string, uri: Option<string>, base: string, u: string, get: Option<HttpGetJson>,
                 expected: Option<Json>)
    requires EntityId(id, uri, base).Ok?
    ensures HttpLocator(id, uri, base).Ok? && AtId(id, uri, base).Ok? && IsEntity(Obj(EntityId(id, uri, base).value))
    ensures Binder(u, get, expected)(EntityId(id, uri, base).value) <==> BoundTo(id, uri, base, u, get, expected)
  {
    var e := EntityId(id, uri, base).value;
    EntityGet(id, uri, base);
    AtIdNonBlank(id, uri, base);
    AgreesIff(e, id, uri, base, u);
    FetchesIff(e, AtId(id, uri, base).value, get, expected);
  }

  lemma FetchesIff(e: Dict, at: string, get: Option<HttpGetJson>, expected: Option<Json>)
    requires Get(e, ID) == Some(Str(at)) && Strip(at) != []
    ensures (get.Some? ==> Fetches(e, get.value, expected)) <==> PayloadAt(at, get, expected)
  {
  }

  lemma FirstTwoOf(a: Dict, b: Dict, first: Dict -> bool, second: Dict -> bool)
    requires IsEntity(Obj(a)) && IsEntity(Obj(b))
    ensures FirstTwo([Obj(a), Obj(b)], first, second) <==> first(a) && second(b)
  {
  }

  /** The builder's output passes the execution bind if and only if an Order was given, the first URI denotes it and the
      second the output Invoice, and what is fetched from them is as expected. */
  lemma ExecutionBindIff(a: BomArgs, base: string, q: BindRequest)
    requires Bom(a, base).Ok?
    ensures UsedList(Bom(a, base).value).Ok? && Used(a, base).Ok?
    ensures ResolvedUri(a.invoice, a.invoiceUri, base).Ok?
    ensures BindHolds(UsedList(Bom(a, base).value).value, q) <==>
      && WellAsked(q) && Present(a.order)
      && BoundEntity(a.order.id.value, a.order.uri, base, Strip(q.orderUri), q.get, q.order)
      && BoundEntity(a.invoice, ResolvedUri(a.invoice, a.invoiceUri, base).value, base, Strip(q.invoiceUri), q.get,
                     q.invoice)
  {
    BomLists(a, base);
    UsedShape(a, base);
    if Present(a.order) {
      var resolved := ResolvedUri(a.invoice, a.invoiceUri, base).value;
      var order := EntityId(a.order.id.value, a.order.uri, base).value;
      var invoice := EntityId(a.invoice, resolved, base).value;
      BindsIff(a.order.id.value, a.order.uri, base, Strip(q.orderUri), q.get, q.order);
      BindsIff(a.invoice, resolved, base, Strip(q.invoiceUri), q.get, q.invoice);
      FirstTwoOf(order, invoice, Binder(Strip(q.orderUri), q.get, q.order),
                 Binder(Strip(q.invoiceUri), q.get, q.invoice));
    }
  }

  ghost predicate BoundEntity(id: string, uri: Option<string>, base: string, u: string, get: Option<HttpGetJson>,
                              expected: Option<Json>) {
    AtId(id, uri, base).Ok? && HttpLocator(id, uri, base).Ok? && BoundTo(id, uri, base, u, get, expected)
  }

  // --- what tokens mean ------------------------------------------------------------------------------

  /** The token of any spelling of a digest is its hex form. */
  lemma TokenOfDigest(id: string)
    requires Named(id).Some?
    ensures RefToken(id) == FromNi(id) && RefToken(id).Ok?
  {
    FromNiNamed(id);
    StripTwice(id);
    NoIpfsInDigest(id);
    DigestIsNoUrl(Strip(id));
    LowerOfHex(FromNi(id).value);
  }

  lemma NoIpfsInDigest(id: string)
    requires FromNi(id).Ok?
    ensures WithoutIpfs(Strip(id)) == Strip(id)
  {
    var value := Strip(id);
    if IsHex64(Lower(value)) {
      assert IsHexChar(Lower(value)[0]) && IPFS[0] == 'i';
    } else {
      assert value[0] == NI_PREFIX[0] && Lower(value)[0] == LowerChar(value[0]);
    }
  }

  lemma HttpIsNoIpfs(text: string)
    requires IsHttpUri(text) && Strip(text) == text
    ensures WithoutIpfs(text) == text
  {
    assert Lower(text)[0] == 'h' && IPFS[0] == 'i';
  }

  /** The token of a URL is its last path segment: `ldp/orders/<hex>` and `ldp/cas/<hex>` denote the same. */
  lemma TokenOfPath(front: string, key: string)
    requires var u := front + ['/'] + key; IsHttpUri(u) && Strip(u) == u
    requires key != [] && '/' !in key
    ensures RefToken(front + ['/'] + key) == Ok(Lower(key))
  {
    var u := front + ['/'] + key;
    HttpIsNoIpfs(u);
    assert u[|u| - 1] == key[|key| - 1] && key[|key| - 1] in key;
    LastSegment(front, key);
  }

  lemma TokenOfCasUri(hex: string, base: string)
    requires IsHex64(hex) && HostOnly(base)
    ensures CasLdpUri(hex, base).Ok? && RefToken(CasLdpUri(hex, base).value) == Ok(hex)
  {
    CasUriPath(hex, base);
    LowerOfHex(hex);
    NoSlashInHex(hex);
    CasUriEnds(hex, base);
    TokenOfPath(RStripSlash(base) + "/ldp/cas", hex);
  }

  lemma NoSlashInHex(hex: string)
    requires IsHex64(hex)
    ensures '/' !in hex && hex != []
  {
    assert !IsHexChar('/');
  }

  lemma CasUriEnds(hex: string, base: string)
    requires IsHex64(hex)
    ensures CasLdpUri(hex, base) == Ok(RStripSlash(base) + "/ldp/cas" + ['/'] + hex)
  {
    HexIsTrimmed(hex);
    LowerOfHex(hex);
    assert "/ldp/cas" + ['/'] == CAS_PATH;
    assert RStripSlash(base) + CAS_PATH == RStripSlash(base) + "/ldp/cas" + ['/'];
  }

  /** Without a locator of its own, a digest is cited by its CAS locator. */
  lemma DefaultLocator(id: string, base: string)
    requires Named(id).Some? && HostOnly(base)
    ensures FromNi(id).Ok? && CasLdpUri(FromNi(id).value, base).Ok?
    ensures ContentUri(id, base) == Ok(Some(CasLdpUri(FromNi(id).value, base).value))
    ensures HttpLocator(id, None, base) == ContentUri(id, base)
    ensures AtId(id, None, base) == CasLdpUri(FromNi(id).value, base)
    ensures RefToken(AtId(id, None, base).value) == FromNi(id) == RefToken(id)
  {
    FromNiNamed(id);
    StripTwice(id);
    TokenOfDigest(id);
    CasUriPath(FromNi(id).value, base);
    TokenOfCasUri(FromNi(id).value, base);
    NamedNotEmpty(id);
  }

  lemma NamedNotEmpty(id: string)
    requires FromNi(id).Ok?
    ensures id != [] && Strip(id) != []
  {
  }

  lemma DenotesDigest(u: string, id: string, base: string)
    requires Named(id).Some? && HostOnly(base)
    ensures AtId(id, None, base).Ok? && HttpLocator(id, None, base).Ok?
    ensures Denotes(u, id, None, base) <==> RefToken(u) == FromNi(id)
  {
    DefaultLocator(id, base);
  }

  /** The same for a locator that is given, or found, as that one. */
  lemma DenotesLocated(u: string, id: string, uri: string, base: string)
    requires Named(id).Some? && HostOnly(base) && FromNi(id).Ok? && CasLdpUri(FromNi(id).value, base) == Ok(uri)
    ensures AtId(id, Some(uri), base).Ok? && HttpLocator(id, Some(uri), base).Ok?
    ensures Denotes(u, id, Some(uri), base) <==> RefToken(u) == FromNi(id)
  {
    DefaultLocator(id, base);
    FromNiNamed(id);
    CasUriPath(FromNi(id).value, base);
    NamedNotEmpty(id);
  }

  /** The URI has the token of the digest or of the locator it is cited by. */
  ghost predicate NamesCited(u: string, id: string, locator: string) {
    RefToken(u).Ok? && (RefToken(u) == FromNi(id) || RefToken(u) == RefToken(locator))
  }

  lemma DenotesCited(u: string, id: string, uri: Option<string>, base: string)
    requires Named(id).Some? && HttpLocator(id, uri, base).Ok? && HttpLocator(id, uri, base).value.Some?
    ensures AtId(id, uri, base).Ok?
    ensures Denotes(u, id, uri, base) <==> NamesCited(u, id, HttpLocator(id, uri, base).value.value)
  {
    var http := HttpLocator(id, uri, base).value.value;
    TokenOfHttp(http);
    TokenOfDigest(id);
    FromNiNamed(id);
    NamedNotEmpty(id);
  }

  /** For digest ids with any HTTP locators the bind accepts exactly the URIs with the token of that Order's digest or
      locator and then of that Invoice's. */
  lemma DigestBindIff(a: BomArgs, base: string, orderUri: string, invoiceUri: string)
    requires Bom(a, base).Ok? && ResolvedUri(a.invoice, a.invoiceUri, base).Ok?
    requires Present(a.order) && Named(a.order.id.value).Some? && Named(a.invoice).Some?
    requires var order := HttpLocator(a.order.id.value, a.order.uri, base); order.Ok? && order.value.Some?
    requires var invoice := HttpLocator(a.invoice, ResolvedUri(a.invoice, a.invoiceUri, base).value, base);
      invoice.Ok? && invoice.value.Some?
    ensures UsedList(Bom(a, base).value).Ok?
    ensures BindHolds(UsedList(Bom(a, base).value).value, BindRequest(orderUri, invoiceUri, None, None, None)) <==>
      && Strip(orderUri) != [] && Strip(invoiceUri) != []
      && NamesCited(Strip(orderUri), a.order.id.value, HttpLocator(a.order.id.value, a.order.uri, base).value.value)
      && NamesCited(Strip(invoiceUri), a.invoice,
                    HttpLocator(a.invoice, ResolvedUri(a.invoice, a.invoiceUri, base).value, base).value.value)
  {
    ExecutionBindIff(a, base, BindRequest(orderUri, invoiceUri, None, None, None));
    DenotesCited(Strip(orderUri), a.order.id.value, a.order.uri, base);
    DenotesCited(Strip(invoiceUri), a.invoice, ResolvedUri(a.invoice, a.invoiceUri, base).value, base);
  }

  /** For digest ids cited by their CAS locators the bind accepts exactly the URIs of that Order and that Invoice, in
      this order, in any spelling. */
  lemma DefaultBindIff(a: BomArgs, base: string, orderUri: string, invoiceUri: string)
    requires Bom(a, base).Ok? && HostOnly(base)
    requires Present(a.order) && Named(a.order.id.value).Some? && a.order.uri.None? && Named(a.invoice).Some?
      && a.invoiceUri.None?
    ensures UsedList(Bom(a, base).value).Ok?
    ensures BindHolds(UsedList(Bom(a, base).value).value, BindRequest(orderUri, invoiceUri, None, None, None)) <==>
      && Strip(orderUri) != [] && Strip(invoiceUri) != []
      && RefToken(Strip(orderUri)) == FromNi(a.order.id.value) && RefToken(Strip(invoiceUri)) == FromNi(a.invoice)
  {
    ExecutionBindIff(a, base, BindRequest(orderUri, invoiceUri, None, None, None));
    DenotesDigest(Strip(orderUri), a.order.id.value, base);
    DefaultLocator(a.invoice, base);
    DenotesLocated(Strip(invoiceUri), a.invoice, CasLdpUri(FromNi(a.invoice).value, base).value, base);
  }

  /** Any entity with an HTTP locator and a well-formed id denotes that locator and that id. */
  lemma OwnNamesDenote(id: string, uri: Option<string>, base: string, u: string)
    requires HttpLocator(id, uri, base).Ok? && HttpLocator(id, uri, base).value.Some? && RefToken(id).Ok?
    requires u == HttpLocator(id, uri, base).value.value || (u == id && Strip(id) != [])
    ensures AtId(id, uri, base).Ok? && Denotes(Strip(u), id, uri, base)
  {
    var http := HttpLocator(id, uri, base).value.value;
    TokenOfHttp(http);
    StripTwice(u);
  }

  lemma TokenOfHttp(uri: string)
    requires IsHttpUri(uri)
    ensures RefToken(uri).Ok?
  {
    StripTwice(uri);
    HttpIsNoIpfs(Strip(uri));
  }

  /** The builder's output passes the bind against the very locators, or ids, it was built from. */
  lemma OwnBindPasses(a: BomArgs, base: string, orderUri: string, invoiceUri: string)
    requires Bom(a, base).Ok? && Present(a.order)
    requires Cites(a.order.id.value, a.order.uri, base, orderUri)
    requires ResolvedUri(a.invoice, a.invoiceUri, base).Ok?
      && Cites(a.invoice, ResolvedUri(a.invoice, a.invoiceUri, base).value, base, invoiceUri)
    ensures UsedList(Bom(a, base).value).Ok?
    ensures BindHolds(UsedList(Bom(a, base).value).value, BindRequest(orderUri, invoiceUri, None, None, None))
  {
    ExecutionBindIff(a, base, BindRequest(orderUri, invoiceUri, None, None, None));
    OwnNamesDenote(a.order.id.value, a.order.uri, base, orderUri);
    OwnNamesDenote(a.invoice, ResolvedUri(a.invoice, a.invoiceUri, base).value, base, invoiceUri);
    CitesNonBlank(a.order.id.value, a.order.uri, base, orderUri);
    CitesNonBlank(a.invoice, ResolvedUri(a.invoice, a.invoiceUri, base).value, base, invoiceUri);
  }

  /** The URI is the HTTP locator or the well-formed id of what is cited. */
  ghost predicate Cites(id: string, uri: Option<string>, base: string, u: string) {
    && HttpLocator(id, uri, base).Ok? && HttpLocator(id, uri, base).value.Some? && RefToken(id).Ok?
    && (u == HttpLocator(id, uri, base).value.value || (u == id && Strip(id) != []))
  }

  lemma CitesNonBlank(id: string, uri: Option<string>, base: string, u: string)
    requires Cites(id, uri, base, u)
    ensures Strip(u) != []
  {
    AtIdNonBlank(id, uri, base);
  }

  // --- as-executed bind ------------------------------------------------------------------------------

  /** Every stage that is there has an HTTP locator and a well-formed id. */
  ghost predicate Comparable(r: Ref, base: string) {
    Present(r) ==>
      && HttpLocator(r.id.value, r.uri, base).Ok? && HttpLocator(r.id.value, r.uri, base).value.Some?
      && RefToken(r.id.value).Ok?
  }

  lemma StageComparable(r: Ref, source: Ref, base: string, u: string)
    requires Stage(r, source, base).Ok? && Comparable(r, base) && RefToken(u).Ok?
    ensures forall k :: 0 <= k < |Stage(r, source, base).value| ==> !Raises(Stage(r, source, base).value[k], JudgeOf(u))
  {
    if Present(r) {
      StageGet(r.id.value, r.uri, source, base);
      TokenOfHttp(HttpLocator(r.id.value, r.uri, base).value.value);
      AgreesIff(StageEntity(r.id.value, r.uri, source, base).value, r.id.value, r.uri, base, u);
    }
  }

  lemma NoneRaisesConcat(a: seq<Json>, b: seq<Json>, judge: Judge)
    requires NoneRaises(a, judge) && NoneRaises(b, judge)
    ensures NoneRaises(a + b, judge)
  {
  }

  lemma LineageComparable(a: BomArgs, base: string, u: string)
    requires Lineage(a, base).Ok? && RefToken(u).Ok?
    requires Comparable(a.ingress, base) && Comparable(a.integration, base) && Comparable(a.data, base)
      && Comparable(a.asExecuted, base)
    ensures NoneRaises(Lineage(a, base).value, JudgeOf(u))
  {
    var s1, s2 := Stage(a.ingress, a.input, base).value, Stage(a.integration, a.ingress, base).value;
    var s3, s4 := Stage(a.data, a.integration, base).value, Stage(a.asExecuted, ABSENT, base).value;
    StageComparable(a.ingress, a.input, base, u);
    StageComparable(a.integration, a.ingress, base, u);
    StageComparable(a.data, a.integration, base, u);
    StageComparable(a.asExecuted, ABSENT, base, u);
    NoneRaisesConcat(s1, s2, JudgeOf(u));
    NoneRaisesConcat(s1 + s2, s3, JudgeOf(u));
    NoneRaisesConcat(s1 + s2 + s3, s4, JudgeOf(u));
  }

  lemma AsExecutedObserves(r: Ref, base: string, u: string)
    requires Present(r) && Stage(r, ABSENT, base).Ok? && AtId(r.id.value, r.uri, base).Ok?
      && HttpLocator(r.id.value, r.uri, base).Ok?
    requires Denotes(u, r.id.value, r.uri, base)
    ensures |Stage(r, ABSENT, base).value| == 1 && Observes(Stage(r, ABSENT, base).value[0], JudgeOf(u))
  {
    StageGet(r.id.value, r.uri, ABSENT, base);
    AgreesIff(StageEntity(r.id.value, r.uri, ABSENT, base).value, r.id.value, r.uri, base, u);
  }

  /** Against its locator or id, the as-executed bind finds the as-executed entity itself, also when a payload stage has
      the same id. */
  lemma AsExecutedPasses(a: BomArgs, base: string, u: string)
    requires Bom(a, base).Ok? && Present(a.asExecuted) && Cites(a.asExecuted.id.value, a.asExecuted.uri, base, u)
    requires Comparable(a.ingress, base) && Comparable(a.integration, base) && Comparable(a.data, base)
    ensures LineageList(Bom(a, base).value).Ok?
    ensures StageEntity(a.asExecuted.id.value, a.asExecuted.uri, ABSENT, base).Ok?
    ensures AsExecuted(LineageList(Bom(a, base).value).value, ObservationRequest(u, None, None))
         == StageEntity(a.asExecuted.id.value, a.asExecuted.uri, ABSENT, base)
  {
    var r := a.asExecuted;
    BomLists(a, base);
    OwnNamesDenote(r.id.value, r.uri, base, u);
    CitesNonBlank(r.id.value, r.uri, base, u);
    var lineage, judge := Lineage(a, base).value, JudgeOf(Strip(u));
    LineageComparable(a, base, Strip(u));
    AsExecutedObserves(r, base, Strip(u));
    assert lineage[|lineage| - 1] == Stage(r, ABSENT, base).value[0];
    assert LastObservation(lineage, judge, |lineage| - 1);
    SaeEntityIs(lineage, judge);
  }

  // --- the BOM as a document of references -----------------------------------------------------------

  lemma HeadUris(a: BomArgs, used: seq<Json>, invoiceUri: Option<string>, logUri: Option<string>, k: string)
    requires k == "invoice_uri" || k == "log_uri"
    ensures Get(Head(a, used, invoiceUri, logUri), k)
         == Some(if k == "invoice_uri" then UriText(invoiceUri, a.invoice) else UriText(logUri, a.log))
  {
    var types := Arr([Str("prov:Entity"), Str("cats:ExecutionBom")]);
    var first := [Field("@context", CONTEXT)] + [Field(TYPE, types)];
    var second := [Field(GENERATED_BY, Obj(Activity(used)))];
    var invoice, log := Field("invoice_uri", UriText(invoiceUri, a.invoice)), Field("log_uri", UriText(logUri, a.log));
    var did := if a.nodeDid.Some? then
        [Field("node_did", Str(a.nodeDid.value)), Field("prov:wasAttributedTo", Obj([Field(ID, Str(a.nodeDid.value))]))]
      else [];
    assert Head(a, used, invoiceUri, logUri) == first + (second + ([invoice] + ([log] + did)));
    UriKeys(k);
    GetConcat(first, second + ([invoice] + ([log] + did)), k);
    GetConcat([Field("@context", CONTEXT)], [Field(TYPE, types)], k);
    GetConcat(second, [invoice] + ([log] + did), k);
    GetConcat([invoice], [log] + did, k);
    GetConcat([log], did, k);
  }

  lemma UriKeys(k: string)
    requires k == "invoice_uri" || k == "log_uri"
    ensures k != "@context" && k != TYPE && k != GENERATED_BY && k != STAGE_LINEAGE
  {
    assert "@context"[0] == '@' && TYPE[0] == '@' && GENERATED_BY[0] == 'p' && STAGE_LINEAGE[0] == 's';
  }

  lemma BomUris(a: BomArgs, base: string, k: string)
    requires Bom(a, base).Ok? && (k == "invoice_uri" || k == "log_uri")
    ensures ResolvedUri(a.invoice, a.invoiceUri, base).Ok? && ResolvedUri(a.log, a.logUri, base).Ok?
    ensures Get(Bom(a, base).value, k) ==
      Some(if k == "invoice_uri" then UriText(ResolvedUri(a.invoice, a.invoiceUri, base).value, a.invoice)
           else UriText(ResolvedUri(a.log, a.logUri, base).value, a.log))
  {
    var (used, lineage) := (Used(a, base).value, Lineage(a, base).value);
    var (invoiceUri, logUri) := (ResolvedUri(a.invoice, a.invoiceUri, base).value,
                                 ResolvedUri(a.log, a.logUri, base).value);
    HeadUris(a, used, invoiceUri, logUri, k);
    GetConcat(Head(a, used, invoiceUri, logUri), if lineage != [] then [Field(STAGE_LINEAGE, Arr(lineage))] else [], k);
  }

  lemma BomFields()
    ensures UriField("invoice") == "invoice_uri" && UriField("log") == "log_uri"
  {
    assert "invoice"[3] == 'o' && "_uri"[3] == 'i' && "_cid"[3] == 'd';
    assert "invoice" + "_uri" == "invoice_uri" && "log" + "_uri" == "log_uri";
  }

  /** A default locator read back from a document. */
  lemma DefaultReads(d: Dict, stem: string, id: string, base: string, loc: Locators)
    requires Named(id).Some? && HostOnly(base) && ResolvedUri(id, None, base).Ok?
    requires Get(d, UriField(stem)) == Some(UriText(ResolvedUri(id, None, base).value, id))
    ensures EqualityId(id).Ok? && RefId(d, stem, loc) == Ok(Some(EqualityId(id).value))
  {
    DefaultLocator(id, base);
    EqualityIdOfNamed(id);
    FromNiNamed(id);
    CasUriPath(FromNi(id).value, base);
    IdOfCasUri(Named(id).value, base, Get(d, CidField(stem)), Get(d, "content_id"), stem, loc);
  }

  /** Read as a document of references, the BOM refers to the Invoice and the log it was built for. */
  lemma BomNamesItsRun(a: BomArgs, base: string, loc: Locators)
    requires Bom(a, base).Ok? && HostOnly(base)
    requires Named(a.invoice).Some? && a.invoiceUri.None? && Named(a.log).Some? && a.logUri.None?
    ensures EqualityId(a.invoice).Ok? && EqualityId(a.log).Ok?
    ensures RefId(Bom(a, base).value, "invoice", loc) == Ok(Some(EqualityId(a.invoice).value))
    ensures RefId(Bom(a, base).value, "log", loc) == Ok(Some(EqualityId(a.log).value))
  {
    EqualityIdOfNamed(a.invoice);
    EqualityIdOfNamed(a.log);
    BomFields();
    BomUris(a, base, "invoice_uri");
    BomUris(a, base, "log_uri");
    DefaultReads(Bom(a, base).value, "invoice", a.invoice, base, loc);
    DefaultReads(Bom(a, base).value, "log", a.log, base, loc);
  }
}
