/** What an execution BOM says, field by field (cats/network/feedback/envelope.py), and which manifests count as the
    same
    (cats/network/cas/manifest_equiv.py). */
module BomContents {
  import opened BomChecks
  import opened BuilderMeetsChecks
  import opened ContentRef
  import opened Digest
  import opened ExecutionBom
  import opened Json
  import opened Text
  import opened Wrappers

  predicate Given(uri: Option<string>) {
    uri.Some? && uri.value != []
  }

  /** The CAS URL of a digest. */
  ghost function DigestUrl(id: string, base: string): Option<string> {
    if id != [] && FromNi(id).Ok? then Some(RStripSlash(base) + "/ldp/cas/" + FromNi(id).value) else None
  }

  /** The HTTP locator an entity shows: the one given, or the CAS URL of its digest when none is. */
  ghost function LocatorOf(id: string, uri: Option<string>, base: string): Option<string> {
    if uri.None? then DigestUrl(id, base) else if IsHttpUri(uri.value) then uri else None
  }

  /** The object cites the id: by its locator, with the id beside it, or by the id itself. */
  ghost predicate CitedAs(e: Dict, id: string, uri: Option<string>, base: string) {
    match LocatorOf(id, uri, base)
    case Some(at) => Get(e, "@id") == Some(Str(at)) && Get(e, "contentId") == Some(Str(id))
    case None => Get(e, "@id") == Some(Str(if IsHttpUri(id) then id else "ipfs://" + id)) && Get(e, "contentId") == None
  }

  lemma ContentUriIs(id: string, base: string)
    requires HostOnly(base) && ContentUri(id, base).Ok?
    ensures ContentUri(id, base).value == DigestUrl(id, base)
    ensures DigestUrl(id, base).Some? ==> IsHttpUri(DigestUrl(id, base).value) && DigestUrl(id, base).value != []
  {
    StripTwice(id);
    FromNiNamed(id);
    if id != [] && FromNi(id).Ok? {
      var hex := FromNi(id).value;
      CasUriPath(hex, base);
      HexIsTrimmed(hex);
      LowerOfHex(hex);
    }
  }

  lemma CitedIs(id: string, uri: Option<string>, base: string)
    requires HostOnly(base) && EntityId(id, uri, base).Ok?
    ensures CitedAs(EntityId(id, uri, base).value, id, uri, base)
  {
    EntityGet(id, uri, base);
    if uri.None? {
      ContentUriIs(id, base);
    } else if uri.value == [] {
      assert Strip("") == "" && !IsHttpUri("");
    }
  }

  // --- the entities ----------------------------------------------------------------------------------

  /** A stage of the lineage: an entity that cites its id, was generated by the run, and was derived from its source if
      it
      has one. */
  ghost predicate StageIs(j: Json, r: Ref, source: Ref, base: string)
    requires Present(r)
  {
    && j.Obj? && CitedAs(j.fields, r.id.value, r.uri, base)
    && Get(j.fields, "@type") == Some(Str("prov:Entity"))
    && Get(j.fields, "prov:wasGeneratedBy") == Some(Obj([Field("@id", Str("#executorRun"))]))
    && match Get(j.fields, "prov:wasDerivedFrom")
       case Some(Obj(from)) => Present(source) && CitedAs(from, source.id.value, source.uri, base)
       case Some(_) => false
       case None => !Present(source)
  }

  lemma StageFields(id: string, uri: Option<string>, source: Ref, base: string)
    requires StageEntity(id, uri, source, base).Ok?
    ensures var s := StageEntity(id, uri, source, base).value;
      && Get(s, "@type") == Some(Str("prov:Entity"))
      && Get(s, "prov:wasGeneratedBy") == Some(Obj([Field("@id", Str("#executorRun"))]))
  {
    Keys();
    EntityGet(id, uri, base);
    var e, derived := EntityId(id, uri, base).value, Derivation(source, base).value;
    var type_ := [Field(TYPE, Str("prov:Entity"))];
    var made := [Field(GENERATED_BY, Obj([Field(ID, Str(EXECUTOR_RUN_ID))]))];
    assert StageEntity(id, uri, source, base).value == e + (type_ + (made + derived));
    forall k | k == TYPE || k == GENERATED_BY ensures !Has(e, k) {
      EntityLacks(id, uri, base, k);
    }
    GetConcat(e, type_ + (made + derived), TYPE);
    GetConcat(e, type_ + (made + derived), GENERATED_BY);
    GetConcat(type_, made + derived, TYPE);
    GetConcat(type_, made + derived, GENERATED_BY);
    GetConcat(made, derived, GENERATED_BY);
  }

  lemma EntityLacks(id: string, uri: Option<string>, base: string, k: string)
    requires EntityId(id, uri, base).Ok? && k != ID && k != CONTENT_ID
    ensures !Has(EntityId(id, uri, base).value, k)
  {
    var at := Field(ID, Str(AtId(id, uri, base).value));
    var tail := if HttpLocator(id, uri, base).value.Some? then [Field(CONTENT_ID, Str(id))] else [];
    assert EntityId(id, uri, base).value == [at] + tail;
    GetConcat([at], tail, k);
    GetOne(ID, at.value, k);
    GetOne(CONTENT_ID, Str(id), k);
  }

  lemma StageIsBuilt(r: Ref, source: Ref, base: string)
    requires HostOnly(base) && Present(r) && Stage(r, source, base).Ok?
    ensures |Stage(r, source, base).value| == 1 && StageIs(Stage(r, source, base).value[0], r, source, base)
  {
    StageGet(r.id.value, r.uri, source, base);
    StageFields(r.id.value, r.uri, source, base);
    CitedIs(r.id.value, r.uri, base);
    if Present(source) {
      CitedIs(source.id.value, source.uri, base);
    }
  }

  // --- the whole BOM ---------------------------------------------------------------------------------

  ghost function OneStage(r: Ref, source: Ref): seq<(Ref, Ref)> {
    if Present(r) then [(r, source)] else []
  }

  /** The stages that are there, each with its source: ingress from input, integration from ingress, data from
      integration, and the as-executed Structure from nothing. */
  ghost function StageRefs(a: BomArgs): (refs: seq<(Ref, Ref)>)
    ensures forall i :: 0 <= i < |refs| ==> Present(refs[i].0)
  {
    OneStage(a.ingress, a.input) + OneStage(a.integration, a.ingress) + OneStage(a.data, a.integration)
    + OneStage(a.asExecuted, Ref(None, None))
  }

  ghost predicate StagesAre(lineage: seq<Json>, refs: seq<(Ref, Ref)>, base: string) {
    |lineage| == |refs| && forall i :: 0 <= i < |refs| ==>
      Present(refs[i].0) && StageIs(lineage[i], refs[i].0, refs[i].1, base)
  }

  lemma StagesConcat(a: seq<Json>, b: seq<Json>, ra: seq<(Ref, Ref)>, rb: seq<(Ref, Ref)>, base: string)
    requires StagesAre(a, ra, base) && StagesAre(b, rb, base)
    ensures StagesAre(a + b, ra + rb, base)
  {
  }

  lemma OneStageIs(r: Ref, source: Ref, base: string)
    requires HostOnly(base) && Stage(r, source, base).Ok?
    ensures StagesAre(Stage(r, source, base).value, OneStage(r, source), base)
  {
    if Present(r) {
      StageIsBuilt(r, source, base);
    }
  }

  lemma LineageIs(a: BomArgs, base: string)
    requires HostOnly(base) && Lineage(a, base).Ok?
    ensures StagesAre(Lineage(a, base).value, StageRefs(a), base)
  {
    var s1, s2 := Stage(a.ingress, a.input, base).value, Stage(a.integration, a.ingress, base).value;
    var s3, s4 := Stage(a.data, a.integration, base).value, Stage(a.asExecuted, ABSENT, base).value;
    var r1, r2, r3 := OneStage(a.ingress, a.input), OneStage(a.integration, a.ingress), OneStage(a.data, a.integration);
    OneStageIs(a.ingress, a.input, base);
    OneStageIs(a.integration, a.ingress, base);
    OneStageIs(a.data, a.integration, base);
    OneStageIs(a.asExecuted, ABSENT, base);
    StagesConcat(s1, s2, r1, r2, base);
    StagesConcat(s1 + s2, s3, r1 + r2, r3, base);
    StagesConcat(s1 + s2 + s3, s4, r1 + r2 + r3, OneStage(a.asExecuted, ABSENT), base);
  }

  /** What is used: the Order, when there is one, and then the Invoice. */
  ghost predicate UsedAre(used: seq<Json>, a: BomArgs, base: string) {
    && |used| == (if Present(a.order) then 2 else 1)
    && (Present(a.order) ==> used[0].Obj? && CitedAs(used[0].fields, a.order.id.value, a.order.uri, base))
    && used[|used| - 1].Obj?
    && CitedAs(used[|used| - 1].fields, a.invoice, if Given(a.invoiceUri) then a.invoiceUri else None, base)
  }

  lemma UsedCited(a: BomArgs, base: string)
    requires HostOnly(base) && Used(a, base).Ok?
    ensures UsedAre(Used(a, base).value, a, base)
  {
    UsedShape(a, base);
    if Present(a.order) {
      CitedIs(a.order.id.value, a.order.uri, base);
    }
    var resolved := ResolvedUri(a.invoice, a.invoiceUri, base).value;
    CitedIs(a.invoice, resolved, base);
    if !Given(a.invoiceUri) {
      ContentUriIs(a.invoice, base);
    }
  }

  /** What a locator field shows: the given locator, the CAS URL of the digest, or the id. */
  ghost function Shown(id: string, uri: Option<string>, base: string): string {
    if Given(uri) then uri.value else if DigestUrl(id, base).Some? then DigestUrl(id, base).value else id
  }

  lemma ShownIs(id: string, uri: Option<string>, base: string)
    requires HostOnly(base) && ResolvedUri(id, uri, base).Ok?
    ensures UriText(ResolvedUri(id, uri, base).value, id) == Str(Shown(id, uri, base))
  {
    if !Given(uri) {
      ContentUriIs(id, base);
    }
  }

  /** The activity of the run, citing what it used. */
  ghost predicate RunUsed(bom: Dict, used: seq<Json>) {
    match Get(bom, "prov:wasGeneratedBy")
    case Some(Obj(activity)) =>
      && Get(activity, "@id") == Some(Str("#executorRun"))
      && Get(activity, "prov:used") == Some(if |used| == 1 then used[0] else Arr(used))
    case _ => false
  }

  /** The BOM of a run, in full: its two locators, what the run used, and the stages of its lineage. */
  lemma BomIs(a: BomArgs, base: string) returns (used: seq<Json>, lineage: seq<Json>)
    requires HostOnly(base) && Bom(a, base).Ok?
    ensures var bom := Bom(a, base).value;
      && Get(bom, "invoice_uri") == Some(Str(Shown(a.invoice, a.invoiceUri, base)))
      && Get(bom, "log_uri") == Some(Str(Shown(a.log, a.logUri, base)))
      && RunUsed(bom, used) && UsedAre(used, a, base)
      && Get(bom, "stageLineage") == (if lineage == [] then None else Some(Arr(lineage)))
      && StagesAre(lineage, StageRefs(a), base)
  {
    BomUris(a, base, "invoice_uri");
    BomUris(a, base, "log_uri");
    ShownIs(a.invoice, a.invoiceUri, base);
    ShownIs(a.log, a.logUri, base);
    UsedCited(a, base);
    LineageIs(a, base);
    used, lineage := Used(a, base).value, Lineage(a, base).value;
    BomParts(a, base);
    ActivityGet(used);
    ActivityId(used);
  }

  lemma {:induction false} GetBehind(front: Dict, rest: Dict, k: string)
    requires forall i :: 0 <= i < |front| ==> front[i].key != k
    ensures Get(front + rest, k) == Get(rest, k)
  {
    if front == [] {
      assert front + rest == rest;
    } else {
      assert (front + rest)[1..] == front[1..] + rest && (front + rest)[0] == front[0];
      GetBehind(front[1..], rest, k);
    }
  }

  /** The five fields every BOM starts with. */
  lemma HeadKeys(k: string)
    requires k in {"node_did", "prov:wasAttributedTo"}
    ensures k != "@context" && k != TYPE && k != GENERATED_BY && k != "invoice_uri" && k != "log_uri"
      && k != STAGE_LINEAGE
  {
    assert |"node_did"| == 8 && |"@context"| == 8 && "node_did"[0] == 'n' && "@context"[0] == '@';
    assert |"prov:wasAttributedTo"| == 20 && |TYPE| == 5 && |GENERATED_BY| == 19;
    assert |"invoice_uri"| == 11 && |"log_uri"| == 7 && |STAGE_LINEAGE| == 12;
  }

  ghost predicate Lacks(d: Dict, k: string) {
    forall i :: 0 <= i < |d| ==> d[i].key != k
  }

  lemma {:induction false} LacksNone(d: Dict, k: string)
    requires Lacks(d, k)
    ensures Get(d, k) == None
  {
    if d != [] {
      LacksNone(d[1..], k);
    }
  }

  /** The fields in front of the attribution. */
  ghost function Front(a: BomArgs, used: seq<Json>, invoiceUri: Option<string>, logUri: Option<string>): Dict {
    [Field("@context", CONTEXT), Field(TYPE, Arr([Str("prov:Entity"), Str("cats:ExecutionBom")])),
     Field(GENERATED_BY, Obj(Activity(used))), Field("invoice_uri", UriText(invoiceUri, a.invoice)),
     Field("log_uri", UriText(logUri, a.log))]
  }

  ghost function Attribution(k1: string, k2: string, id: string, did: Option<string>): Dict {
    if did.Some? then [Field(k1, Str(did.value)), Field(k2, Obj([Field(id, Str(did.value))]))] else []
  }

  lemma FrontLacks(a: BomArgs, used: seq<Json>, invoiceUri: Option<string>, logUri: Option<string>, k: string)
    requires k in {"node_did", "prov:wasAttributedTo"}
    ensures Lacks(Front(a, used, invoiceUri, logUri), k)
  {
    HeadKeys(k);
  }

  lemma BomSplit(a: BomArgs, base: string) returns (front: Dict, tail: Dict)
    requires Bom(a, base).Ok?
    ensures Bom(a, base).value == front + (Attribution("node_did", "prov:wasAttributedTo", ID, a.nodeDid) + tail)
    ensures forall k :: k in {"node_did", "prov:wasAttributedTo"} ==> Lacks(front, k) && Lacks(tail, k)
  {
    var (used, lineage) := (Used(a, base).value, Lineage(a, base).value);
    var (invoiceUri, logUri) := (ResolvedUri(a.invoice, a.invoiceUri, base).value,
                                 ResolvedUri(a.log, a.logUri, base).value);
    front := Front(a, used, invoiceUri, logUri);
    tail := if lineage != [] then [Field(STAGE_LINEAGE, Arr(lineage))] else [];
    var did := Attribution("node_did", "prov:wasAttributedTo", ID, a.nodeDid);
    HeadSplit(a, used, invoiceUri, logUri);
    assert Bom(a, base).value == Head(a, used, invoiceUri, logUri) + tail == front + (did + tail);
    forall k | k in {"node_did", "prov:wasAttributedTo"} ensures Lacks(front, k) && Lacks(tail, k) {
      FrontLacks(a, used, invoiceUri, logUri, k);
      HeadKeys(k);
    }
  }

  lemma HeadSplit(a: BomArgs, used: seq<Json>, invoiceUri: Option<string>, logUri: Option<string>)
    ensures Head(a, used, invoiceUri, logUri)
         == Front(a, used, invoiceUri, logUri) + Attribution("node_did", "prov:wasAttributedTo", ID, a.nodeDid)
  {
  }

  lemma AttributedGet(front: Dict, tail: Dict, k1: string, k2: string, id: string, did: Option<string>)
    requires k1 != k2 && Lacks(front, k1) && Lacks(front, k2) && Lacks(tail, k1) && Lacks(tail, k2)
    ensures var d := front + (Attribution(k1, k2, id, did) + tail);
      && Get(d, k1) == (if did.Some? then Some(Str(did.value)) else None)
      && Get(d, k2) == (if did.Some? then Some(Obj([Field(id, Str(did.value))])) else None)
  {
    var middle := Attribution(k1, k2, id, did);
    GetBehind(front, middle + tail, k1);
    GetBehind(front, middle + tail, k2);
    LacksNone(tail, k1);
    LacksNone(tail, k2);
    if did.None? {
      assert middle + tail == tail;
    } else {
      assert (middle + tail)[1..] == [middle[1]] + tail && ([middle[1]] + tail)[0] == middle[1];
    }
  }

  /** The node that signs is named twice, when it is given, and not at all when it is not. */
  lemma BomAttributed(a: BomArgs, base: string)
    requires Bom(a, base).Ok?
    ensures var bom := Bom(a, base).value;
      && Get(bom, "node_did") == (if a.nodeDid.Some? then Some(Str(a.nodeDid.value)) else None)
      && Get(bom, "prov:wasAttributedTo")
         == (if a.nodeDid.Some? then Some(Obj([Field("@id", Str(a.nodeDid.value))])) else None)
  {
    var front, tail := BomSplit(a, base);
    assert |"node_did"| != |"prov:wasAttributedTo"|;
    AttributedGet(front, tail, "node_did", "prov:wasAttributedTo", "@id", a.nodeDid);
  }

  lemma ActivityId(used: seq<Json>)
    ensures Get(Activity(used), "@id") == Some(Str("#executorRun"))
  {
  }

  lemma BomParts(a: BomArgs, base: string)
    requires Bom(a, base).Ok?
    ensures Used(a, base).Ok? && Lineage(a, base).Ok?
    ensures Get(Bom(a, base).value, GENERATED_BY) == Some(Obj(Activity(Used(a, base).value)))
    ensures Get(Bom(a, base).value, STAGE_LINEAGE) ==
      (if Lineage(a, base).value == [] then None else Some(Arr(Lineage(a, base).value)))
  {
    var (used, lineage) := (Used(a, base).value, Lineage(a, base).value);
    var (invoiceUri, logUri) := (ResolvedUri(a.invoice, a.invoiceUri, base).value,
                                 ResolvedUri(a.log, a.logUri, base).value);
    var head := Head(a, used, invoiceUri, logUri);
    var tail := if lineage != [] then [Field(STAGE_LINEAGE, Arr(lineage))] else [];
    HeadGet(a, used, invoiceUri, logUri);
    GetConcat(head, tail, GENERATED_BY);
    GetConcat(head, tail, STAGE_LINEAGE);
  }

  // --- when there is a BOM -----------------------------------------------------------------------------

  /** Not a malformed digest. */
  predicate WellFormed(id: string) {
    IsNiOrDigest(id) ==> FromNi(id).Ok?
  }

  /** An absent id, or one that can be cited. */
  predicate Citable(r: Ref) {
    Present(r) ==> r.uri.Some? || WellFormed(r.id.value)
  }

  lemma ContentUriIff(id: string, base: string)
    ensures ContentUri(id, base).Ok? <==> WellFormed(id)
    ensures ContentUri(id, base) == Ok(None) ==> WellFormed(id)
  {
    StripTwice(id);
    FromNiNamed(id);
    if id != [] && FromNi(id).Ok? {
      HexIsTrimmed(FromNi(id).value);
      LowerOfHex(FromNi(id).value);
    } else if id == [] {
      assert Strip("") == "" && |NI_PREFIX| > 0;
    }
  }

  lemma EntityIff(id: string, uri: Option<string>, base: string)
    ensures EntityId(id, uri, base).Ok? <==> uri.Some? || WellFormed(id)
  {
    ContentUriIff(id, base);
  }

  lemma StageIff(r: Ref, source: Ref, base: string)
    ensures Stage(r, source, base).Ok? <==> Present(r) ==> Citable(r) && Citable(source)
  {
    if Present(r) {
      EntityIff(r.id.value, r.uri, base);
    }
    if Present(source) {
      EntityIff(source.id.value, source.uri, base);
    }
  }

  lemma UsedIff(a: BomArgs, base: string)
    ensures Used(a, base).Ok? <==> Citable(a.order) && (Given(a.invoiceUri) || WellFormed(a.invoice))
  {
    if Present(a.order) {
      EntityIff(a.order.id.value, a.order.uri, base);
    }
    ContentUriIff(a.invoice, base);
    if ResolvedUri(a.invoice, a.invoiceUri, base).Ok? {
      EntityIff(a.invoice, ResolvedUri(a.invoice, a.invoiceUri, base).value, base);
    }
  }

  lemma LineageIff(a: BomArgs, base: string)
    ensures Lineage(a, base).Ok? <==>
      && Stage(a.ingress, a.input, base).Ok? && Stage(a.integration, a.ingress, base).Ok?
      && Stage(a.data, a.integration, base).Ok? && Stage(a.asExecuted, ABSENT, base).Ok?
  {
  }

  /** A BOM is built exactly when no id that has to be turned into a locator is a malformed digest. */
  lemma BomIff(a: BomArgs, base: string)
    ensures Bom(a, base).Ok? <==>
      && (Given(a.invoiceUri) || WellFormed(a.invoice)) && (Given(a.logUri) || WellFormed(a.log))
      && Citable(a.order) && Citable(a.ingress) && Citable(a.integration) && Citable(a.data) && Citable(a.asExecuted)
      && (Present(a.ingress) ==> Citable(a.input))
  {
    UsedIff(a, base);
    LineageIff(a, base);
    StageIff(a.ingress, a.input, base);
    StageIff(a.integration, a.ingress, base);
    StageIff(a.data, a.integration, base);
    StageIff(a.asExecuted, ABSENT, base);
    ContentUriIff(a.invoice, base);
    ContentUriIff(a.log, base);
  }

  // --- manifests that are the same -------------------------------------------------------------------

  ghost predicate DistinctKeys(d: Dict) {
    forall i, j :: 0 <= i < j < |d| ==> d[i].key != d[j].key
  }

  /** The `entries` of a manifest: paths to ids. */
  ghost predicate EntriesOf(j: Json, entries: Dict) {
    && j.Obj? && Get(j.fields, "entries") == Some(Obj(entries)) && DistinctKeys(entries)
    && forall i :: 0 <= i < |entries| ==> entries[i].value.Str?
  }

  lemma {:induction false} GetAt(d: Dict, i: nat)
    requires DistinctKeys(d) && i < |d|
    ensures Get(d, d[i].key) == Some(d[i].value)
  {
    if i > 0 {
      GetAt(d[1..], i - 1);
    }
  }

  lemma {:induction false} GetIsField(d: Dict, k: string)
    ensures Get(d, k).Some? ==> exists i :: 0 <= i < |d| && d[i] == Field(k, Get(d, k).value)
  {
    if d != [] {
      if d[0].key == k {
        assert d[0] == Field(k, Get(d, k).value);
      } else {
        GetIsField(d[1..], k);
        if Get(d, k).Some? {
          var i :| 0 <= i < |d[1..]| && d[1..][i] == Field(k, Get(d, k).value);
          assert d[i + 1] == d[1..][i];
        }
      }
    }
  }

  ghost predicate SameEntries(x: Dict, y: Dict) {
    forall k :: Get(x, k) == Get(y, k)
  }

  ghost function KeySet(d: Dict): set<string> {
    set i | 0 <= i < |d| :: d[i].key
  }

  lemma {:induction false} KeyCount(d: Dict)
    requires DistinctKeys(d)
    ensures |KeySet(d)| == |d|
  {
    if d != [] {
      KeyCount(d[1..]);
      assert forall i :: 0 <= i < |d[1..]| ==> d[1..][i] == d[i + 1];
      assert KeySet(d) == KeySet(d[1..]) + {d[0].key} by {
        forall k | k in KeySet(d) ensures k in KeySet(d[1..]) + {d[0].key} {
          var i :| 0 <= i < |d| && d[i].key == k;
          if i > 0 {
            assert d[1..][i - 1].key == k;
          }
        }
      }
      assert d[0].key !in KeySet(d[1..]);
    }
  }

  /** Equal entries, whatever their order. */
  lemma EntriesSameIff(x: Dict, y: Dict)
    requires DistinctKeys(x) && DistinctKeys(y) && forall i :: 0 <= i < |x| ==> x[i].value.Str?
    ensures Same(Obj(x), Obj(y)) <==> SameEntries(x, y)
  {
    forall i | 0 <= i < |x| ensures Get(x, x[i].key) == Some(x[i].value) {
      GetAt(x, i);
    }
    if SameEntries(x, y) {
      SameKeyCount(x, y);
    }
    if Same(Obj(x), Obj(y)) {
      AllHad(x, y);
      forall k ensures Get(x, k) == Get(y, k) {
        KeysOf(x, k);
        KeysOf(y, k);
        GetIsField(x, k);
        if Get(x, k).Some? {
          var i :| 0 <= i < |x| && x[i] == Field(k, Get(x, k).value);
          assert Same(x[i].value, Get(y, x[i].key).value);
        }
      }
    }
  }

  lemma KeysOf(d: Dict, k: string)
    requires DistinctKeys(d)
    ensures k in KeySet(d) <==> Get(d, k).Some?
  {
    GetIsField(d, k);
    if k in KeySet(d) {
      var i :| 0 <= i < |d| && d[i].key == k;
      GetAt(d, i);
    }
  }

  lemma SameKeyCount(x: Dict, y: Dict)
    requires DistinctKeys(x) && DistinctKeys(y) && SameEntries(x, y)
    ensures |x| == |y|
  {
    KeyCount(x);
    KeyCount(y);
    forall k ensures k in KeySet(x) <==> k in KeySet(y) {
      KeysOf(x, k);
      KeysOf(y, k);
    }
    assert KeySet(x) == KeySet(y);
  }

  /** As many keys, and all of the first among those of the second: the same keys. */
  lemma AllHad(x: Dict, y: Dict)
    requires DistinctKeys(x) && DistinctKeys(y) && |x| == |y| && forall i :: 0 <= i < |x| ==> Has(y, x[i].key)
    ensures KeySet(x) == KeySet(y)
  {
    KeyCount(x);
    KeyCount(y);
    forall k | k in KeySet(x) ensures k in KeySet(y) {
      KeysOf(y, k);
    }
    SubsetOfSameSize(KeySet(x), KeySet(y));
  }

  lemma SubsetOfSameSize(a: set<string>, b: set<string>)
    requires a <= b && |a| == |b|
    ensures a == b
  {
    if k :| k in b && k !in a {
      assert a <= b - {k} && |b - {k}| == |b| - 1;
      SubsetSize(a, b - {k});
    }
  }

  lemma {:induction false} SubsetSize(a: set<string>, b: set<string>)
    requires a <= b
    ensures |a| <= |b|
  {
    if a != {} {
      var x :| x in a;
      SubsetSize(a - {x}, b - {x});
    }
  }

  /** Two URIs are content-equivalent if they are the same, or both fetch and, where both are directory manifests, their
      entries are the same in whatever order; blank URIs never are. */
  lemma ManifestsEquivalentIff(a: string, b: string, get: HttpGetJson, x: Dict, y: Dict)
    requires get(Strip(a)).Ok? && EntriesOf(get(Strip(a)).value, x)
    requires get(Strip(b)).Ok? && EntriesOf(get(Strip(b)).value, y)
    ensures Equivalent(a, b, get) <==>
      Strip(a) != [] && Strip(b) != [] && (Strip(a) == Strip(b) || SameEntries(x, y))
  {
    EntriesSameIff(x, y);
  }

  /** Without a fetch only the same URI will do. */
  lemma UnfetchedEquivalentIff(a: string, b: string, get: HttpGetJson)
    requires get(Strip(a)).Err? || get(Strip(b)).Err?
    ensures Equivalent(a, b, get) <==> Strip(a) != [] && Strip(a) == Strip(b)
  {
  }

  /** Lists of documents are compared item by item, and a single one as a list of one. */
  lemma ListsCompared(a: Json, b: Json, x: Json, y: Json)
    requires (a == x && !x.Arr?) || a == Arr([x])
    requires (b == y && !y.Arr?) || b == Arr([y])
    ensures SameManifests(a, b) <==> Same(Fingerprint(x), Fingerprint(y))
  {
    assert Items(a) == [x] && Items(b) == [y];
    assert Items(a)[0] == x && Items(b)[0] == y;
  }
}
