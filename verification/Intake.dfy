/** The two intake resolvers over the registry: node init (cats/node/app.py) and the link operations
    (`_response_from_registry` of cats/network/order.py). */
module Intake {
  import opened Codec
  import opened ContentRef
  import opened Digest
  import opened Hashlink
  import opened Json
  import opened Registry
  import opened Text
  import opened Wrappers

  /** The locator fields both sides read; `None` is an absent or null field. */
  datatype Request = Request(
    bomUri: Option<string>, bomLdpUri: Option<string>, bomSolidUri: Option<string>,
    contentId: Option<string>, hl: Option<string>, dataUri: Option<string>)

  predicate Given(field: Option<string>) {
    field.Some? && field.value != []
  }

  /** Python's `a or b`. */
  function Or(a: Option<string>, b: Option<string>): Option<string> {
    if Given(a) then a else b
  }

  /** The inner helper of both resolvers: an `hl:`, http(s) or digest value to an equality id. */
  datatype Resolved = Id(id: string) | Invalid | Unknown

  function Resolve(value: string, locators: Locators): Resolved {
    if !(IsHl(value) || IsHttpUri(value) || IsNiOrDigest(value)) then Invalid
    else match ResolveIntakeRef(value, locators)
      case Err(_) => Invalid
      case Ok(None) => Unknown
      case Ok(Some(id)) => Id(id)
  }

  // --- node init -------------------------------------------------------------------------------------

  datatype Init = Accepted(order: string) | Refused(status: nat)

  /** An Order id looked up for a BOM id that was already settled. */
  function OrderOfBom(s: Files, bom: string, badId: nat): Init {
    match LookupOrder(s, bom)
    case Err(_) => Refused(badId)
    case Ok(None) => Refused(404)
    case Ok(Some(order)) => Accepted(order)
  }

  function InitByData(s: Files, dataId: string): Init {
    match ResolveUniqueBom(s, dataId)
    case Ambiguous(_) => Refused(409)
    case NoBom => Refused(404)
    case BadId => Refused(400)
    case Sole(bom) => OrderOfBom(s, bom, 500)
  }

  function StatusOf(r: Resolved): nat {
    if r.Invalid? then 400 else 404
  }

  /** `resolve_order_id`, with the legacy body keys already found absent or null. */
  function ResolveOrderId(s: Files, orderUri: Option<string>, q: Request, locators: Locators): Init {
    if Given(orderUri) then
      var r := Resolve(orderUri.value, locators);
      if r.Id? then Accepted(r.id) else Refused(StatusOf(r))
    else
      var bomLocator := Or(Or(q.bomUri, q.bomLdpUri), q.bomSolidUri);
      if Given(bomLocator) then
        var r := Resolve(bomLocator.value, locators);
        if r.Id? then OrderOfBom(s, r.id, 400) else Refused(StatusOf(r))
      else
        var direct := Or(q.contentId, q.hl);
        if Given(direct) then
          if IsHl(direct.value) || IsHttpUri(direct.value) then
            var r := Resolve(direct.value, locators);
            if r.Id? then InitByData(s, r.id) else Refused(StatusOf(r))
          else InitByData(s, direct.value)
        else if Given(q.dataUri) then
          var r := Resolve(q.dataUri.value, locators);
          if !r.Id? then Refused(StatusOf(r))
          else if r.id == [] then Refused(400)
          else if IsHl(r.id) || IsHttpUri(r.id) then
            var again := Resolve(r.id, locators);
            if again.Id? then InitByData(s, again.id) else Refused(StatusOf(again))
          else InitByData(s, r.id)
        else Refused(400)
  }

  // --- link ------------------------------------------------------------------------------------------

  datatype Selection = Selected(bom: string, record: Dict) | Several(boms: seq<string>) | Failed

  function SelectBom(s: Files, bom: string): Selection {
    match GetRecord(s, bom)
    case Ok(Some(record)) => Selected(bom, record)
    case _ => Failed
  }

  function SelectByData(s: Files, dataId: string): Selection {
    match ResolveUniqueBom(s, dataId)
    case Sole(bom) => SelectBom(s, bom)
    case Ambiguous(boms) => Several(boms)
    case _ => Failed
  }

  /** The part of `_response_from_registry` that settles the BOM and its record. */
  function SelectPrior(s: Files, q: Request, locators: Locators): Selection {
    var bomLocator := Or(Or(q.bomUri, q.bomLdpUri), q.bomSolidUri);
    if q.contentId.None? && q.hl.None? && q.dataUri.None? && bomLocator.None? then Failed
    else if bomLocator.Some? then
      // an explicit BOM locator drops the data fields
      var r := Resolve(bomLocator.value, locators);
      if r.Id? then SelectBom(s, r.id) else Failed
    else
      var direct := Or(q.contentId, q.hl);
      var viaUri := if Given(q.dataUri) && !Given(direct) then Resolve(q.dataUri.value, locators) else Unknown;
      if Given(q.dataUri) && !Given(direct) && !viaUri.Id? then Failed
      else
        var dataId := if viaUri.Id? then Some(viaUri.id) else direct;
        if Given(dataId) && (IsHl(dataId.value) || IsHttpUri(dataId.value)) then
          var r := Resolve(dataId.value, locators);
          if r.Id? then SelectByData(s, r.id) else Failed
        else SelectByData(s, OrEmpty(dataId))
  }

  // --- agreement -------------------------------------------------------------------------------------

  /** The one request shape the two sides read differently: no BOM locator except an empty `bom_solid_uri`,
      which is absent to node init and present to link. */
  predicate BlankSolid(q: Request) {
    !Given(q.bomUri) && !Given(q.bomLdpUri) && q.bomSolidUri == Some("")
  }

  ghost predicate Agree(init: Init, sel: Selection) {
    && (forall o :: init == Accepted(o) <==> sel.Selected? && RecordOrderId(sel.record) == Some(o))
    && (init == Refused(409) <==> sel.Several?)
  }

  lemma AgreeOnBom(s: Files, bom: string, badId: nat)
    requires badId != 409
    ensures Agree(OrderOfBom(s, bom, badId), SelectBom(s, bom))
  {
  }

  lemma AgreeOnData(s: Files, dataId: string)
    ensures Agree(InitByData(s, dataId), SelectByData(s, dataId))
  {
    var u := ResolveUniqueBom(s, dataId);
    if u.Sole? {
      AgreeOnBom(s, u.bom, 500);
    }
  }

  lemma BlankDataId(s: Files)
    ensures SelectByData(s, "") == Failed
  {
  }

  /** The request without its data fields. */
  function BomOnly(q: Request): Request {
    q.(contentId := None, hl := None, dataUri := None)
  }

  /** Node init answers with Order `o` exactly when link selects a BOM whose record has order `o`, and
      refuses as ambiguous exactly when link does, for every registry state and request but one shape. With a BOM
      locator neither looks at the data fields. */
  lemma IntakeAgreement(s: Files, q: Request, locators: Locators)
    requires !BlankSolid(q)
    ensures Agree(ResolveOrderId(s, None, q, locators), SelectPrior(s, q, locators))
    ensures Given(Or(Or(q.bomUri, q.bomLdpUri), q.bomSolidUri)) ==>
      && ResolveOrderId(s, None, q, locators) == ResolveOrderId(s, None, BomOnly(q), locators)
      && SelectPrior(s, q, locators) == SelectPrior(s, BomOnly(q), locators)
  {
    var bomLocator := Or(Or(q.bomUri, q.bomLdpUri), q.bomSolidUri);
    if Given(bomLocator) {
      var r := Resolve(bomLocator.value, locators);
      if r.Id? { AgreeOnBom(s, r.id, 400); }
    } else {
      AgreeWithoutBom(s, q, locators);
    }
  }

  lemma AgreeWithoutBom(s: Files, q: Request, locators: Locators)
    requires Or(Or(q.bomUri, q.bomLdpUri), q.bomSolidUri).None?
    ensures Agree(ResolveOrderId(s, None, q, locators), SelectPrior(s, q, locators))
  {
    BlankDataId(s);
    var direct := Or(q.contentId, q.hl);
    var start := if Given(direct) then Id(direct.value)
                 else if Given(q.dataUri) then Resolve(q.dataUri.value, locators) else Unknown;
    if start.Id? {
      AgreeOnData(s, start.id);
      if IsHl(start.id) || IsHttpUri(start.id) {
        var r := Resolve(start.id, locators);
        if r.Id? { AgreeOnData(s, r.id); }
      }
    }
  }

  // --- what a request is read for --------------------------------------------------------------------

  /** An `order_uri` is the Order, whatever the registry holds and whatever else the request says: a digest or a
      hashlink in canonical form, a URL as what it is known as, and nothing else. */
  lemma OrderUriIs(s: Files, uri: string, q: Request, locators: Locators)
    requires uri != []
    ensures IsHl(uri) ==>
      ResolveOrderId(s, Some(uri), q, locators)
           == (if FromHl(uri).Ok? then Accepted(FromHl(uri).value.0) else Refused(400))
    ensures !IsHl(uri) && IsNiOrDigest(uri) ==>
      ResolveOrderId(s, Some(uri), q, locators)
           == (if EqualityId(uri).Ok? then Accepted(EqualityId(uri).value) else Refused(400))
    ensures !IsHl(uri) && IsHttpUri(uri) && ContentIdFromUri(Strip(uri), locators).Ok? ==>
      ResolveOrderId(s, Some(uri), q, locators)
           == (if ContentIdFromUri(Strip(uri), locators).value.Some?
               then Accepted(ContentIdFromUri(Strip(uri), locators).value.value) else Refused(404))
    ensures !IsHl(uri) && IsHttpUri(uri) && ContentIdFromUri(Strip(uri), locators).Err? ==>
      ResolveOrderId(s, Some(uri), q, locators) == Refused(400)
    ensures !IsHl(uri) && !IsNiOrDigest(uri) && !IsHttpUri(uri) ==>
      ResolveOrderId(s, Some(uri), q, locators) == Refused(400)
  {
    if IsHl(uri) {
      HlResolves(uri, locators);
    } else if IsNiOrDigest(uri) {
      DigestOrInvalid(uri, locators);
    }
    if !IsHl(uri) && IsHttpUri(uri) {
      UrlIsNoDigest(uri);
      UrlReadsTrimmed(uri, locators);
    }
  }

  lemma HlResolves(value: string, locators: Locators)
    requires IsHl(value)
    ensures Resolve(value, locators) == (if FromHl(value).Ok? then Id(FromHl(value).value.0) else Invalid)
  {
    StripTwice(value);
    StripTrims(value);
  }

  lemma DigestOrInvalid(id: string, locators: Locators)
    requires !IsHl(id) && IsNiOrDigest(id)
    ensures Resolve(id, locators) == (if EqualityId(id).Ok? then Id(EqualityId(id).value) else Invalid)
  {
    StripTwice(id);
  }

  lemma UrlReadsTrimmed(uri: string, locators: Locators)
    requires !IsHl(uri) && IsHttpUri(uri) && !IsNiOrDigest(uri)
    ensures ResolveIntakeRef(uri, locators) == ContentIdFromUri(Strip(uri), locators)
  {
    StripTwice(uri);
    StripTrims(uri);
  }

  const NO_FIELDS: Request := Request(None, None, None, None, None, None)

  /** The field a request is read for: the first that is given of `bom_uri`, `bom_ldp_uri`, `bom_solid_uri`,
      `content_id`, `hl` and `data_uri`. */
  ghost predicate ReadFor(q: Request, only: Request) {
    || (Given(q.bomUri) && only == NO_FIELDS.(bomUri := q.bomUri))
    || (!Given(q.bomUri) && Given(q.bomLdpUri) && only == NO_FIELDS.(bomLdpUri := q.bomLdpUri))
    || (!Given(q.bomUri) && !Given(q.bomLdpUri) && Given(q.bomSolidUri)
        && only == NO_FIELDS.(bomSolidUri := q.bomSolidUri))
    || (NoBomGiven(q) && Given(q.contentId) && only == NO_FIELDS.(contentId := q.contentId))
    || (NoBomGiven(q) && !Given(q.contentId) && Given(q.hl) && only == NO_FIELDS.(hl := q.hl))
    || (NoBomGiven(q) && !Given(q.contentId) && !Given(q.hl) && Given(q.dataUri)
        && only == NO_FIELDS.(dataUri := q.dataUri))
  }

  ghost predicate NoBomGiven(q: Request) {
    !Given(q.bomUri) && !Given(q.bomLdpUri) && !Given(q.bomSolidUri)
  }

  /** Both sides look at that field only, the excepted shape aside. */
  lemma FirstFieldDecides(s: Files, q: Request, only: Request, locators: Locators)
    requires ReadFor(q, only)
    ensures ResolveOrderId(s, None, q, locators) == ResolveOrderId(s, None, only, locators)
    ensures !BlankSolid(q) ==> SelectPrior(s, q, locators) == SelectPrior(s, only, locators)
  {
  }

  /** A field that says this id: as a digest in a BOM locator or a `data_uri`, in any spelling that can be filed in a
      `content_id` or `hl`. */
  ghost predicate Asks(q: Request, bom: string, data: string) {
    || (IsNiOrDigest(bom) && !IsHl(bom)
        && (q == NO_FIELDS.(bomUri := Some(bom)) || q == NO_FIELDS.(bomLdpUri := Some(bom))
            || q == NO_FIELDS.(bomSolidUri := Some(bom))))
    || (IsNiOrDigest(data) && !IsHl(data) && q == NO_FIELDS.(dataUri := Some(data)))
    || q == NO_FIELDS.(contentId := Some(data)) || q == NO_FIELDS.(hl := Some(data))
  }

  /** A run that was put is found by its BOM id and, when it is the only run with its data, by its data id: node init
      answers with its Order, in canonical form. */
  lemma PutThenInit(s: Files, record: Dict, b: string, o: string, d: string, bom: string, data: string, q: Request,
                    locators: Locators)
    requires Says(record, "content_id", "bom_cid", b) && Says(record, "order", "order_cid", o)
      && Says(record, "data", "data_cid", d)
    requires ContentIdFsKey(b).Ok? && ContentIdFsKey(o).Ok? && ContentIdFsKey(d).Ok?
    requires ContentIdFsKey(bom) == ContentIdFsKey(b) && ContentIdFsKey(data) == ContentIdFsKey(d)
    requires LookupBom(s, d) == Ok([]) && Asks(q, bom, data)
    ensures NormalizeContentId(o).Ok?
    ensures ResolveOrderId(PutUpTo(s, record, 3), None, q, locators) == Accepted(NormalizeContentId(o).value)
  {
    var s' := PutUpTo(s, record, 3);
    FsKeyAgreesWithNormalForm(b, b);
    NormalFormKey(b);
    FiledIsNoUrl(bom);
    FiledIsNoUrl(data);
    PutThenLookups(s, record, b, o, d, bom, o, data);
    PutThenLookups(s, record, b, o, d, NormalizeContentId(b).value, o, data);
    OnlyRun(s, record, b, o, d, data);
    if IsNiOrDigest(bom) {
      DigestKeepsKey(bom);
      PutThenLookups(s, record, b, o, d, EqualityId(bom).value, o, data);
    }
    if IsNiOrDigest(data) {
      DigestKeepsKey(data);
      FiledIsNoUrl(EqualityId(data).value);
      OnlyRun(s, record, b, o, d, EqualityId(data).value);
    }
    AskedFor(s', q, bom, data, NormalizeContentId(b).value, NormalizeContentId(o).value, locators);
  }

  lemma DigestKeepsKey(id: string)
    requires IsNiOrDigest(id) && ContentIdFsKey(id).Ok?
    ensures EqualityId(id).Ok? && ContentIdFsKey(EqualityId(id).value) == ContentIdFsKey(id)
    ensures EqualityId(id) == NormalizeContentId(id)
  {
    StripTwice(id);
    FsKeyAgreesWithNormalForm(id, id);
    NormalFormKey(id);
  }

  /** The run is the only one listed for its data. */
  lemma OnlyRun(s: Files, record: Dict, b: string, o: string, d: string, data: string)
    requires Says(record, "content_id", "bom_cid", b) && Says(record, "order", "order_cid", o)
      && Says(record, "data", "data_cid", d)
    requires ContentIdFsKey(b).Ok? && ContentIdFsKey(o).Ok? && ContentIdFsKey(d).Ok?
    requires ContentIdFsKey(data) == ContentIdFsKey(d) && LookupBom(s, d) == Ok([])
    ensures NormalizeContentId(b).Ok?
    ensures ResolveUniqueBom(PutUpTo(s, record, 3), data) == Sole(NormalizeContentId(b).value)
  {
    PutLists(s, record, b, o, d, ContentIdFsKey(d).value);
    Answers(s, d, ContentIdFsKey(d).value);
    Answers(PutUpTo(s, record, 3), data, ContentIdFsKey(d).value);
  }

  lemma AskedFor(s: Files, q: Request, bom: string, data: string, canonical: string, order: string, locators: Locators)
    requires Asks(q, bom, data) && bom != [] && data != []
    requires !IsHl(bom) && !IsHttpUri(bom) && !IsHl(data) && !IsHttpUri(data)
    requires IsNiOrDigest(bom) ==> EqualityId(bom).Ok? && LookupOrder(s, EqualityId(bom).value) == Ok(Some(order))
    requires LookupOrder(s, canonical) == Ok(Some(order)) && ResolveUniqueBom(s, data) == Sole(canonical)
    requires IsNiOrDigest(data) ==>
      && EqualityId(data).Ok? && EqualityId(data).value != []
      && !IsHl(EqualityId(data).value) && !IsHttpUri(EqualityId(data).value)
      && ResolveUniqueBom(s, EqualityId(data).value) == Sole(canonical)
    ensures ResolveOrderId(s, None, q, locators) == Accepted(order)
  {
    if IsNiOrDigest(bom) {
      DigestResolves(bom, locators);
    }
    if IsNiOrDigest(data) {
      DigestResolves(data, locators);
    }
  }

  lemma DigestResolves(id: string, locators: Locators)
    requires !IsHl(id) && IsNiOrDigest(id) && EqualityId(id).Ok?
    ensures Resolve(id, locators) == Id(EqualityId(id).value)
  {
    StripTwice(id);
    EqualityIdIdempotent(id);
  }

  // --- the excepted shape ----------------------------------------------------------------------------

  /** A URL that can stand for an id of a data index: its own key can be filed, or the locator index decides. */
  predicate UrlCanName(value: string)
    requires IsHttpUri(value)
  {
    match LdpKey(UrlPath(value))
    case None => true
    case Some(key) => ContentIdFsKey(match ToNi(key) case Ok(ni) => ni case Err(_) => key).Ok?
  }

  /** A data field of the request can resolve to an id that can be filed. */
  predicate NamesData(q: Request) {
    var direct := Or(q.contentId, q.hl);
    if Given(direct) then
      if IsHl(direct.value) then FromHl(direct.value).Ok?
      else if IsHttpUri(direct.value) then UrlCanName(direct.value)
      else ContentIdFsKey(direct.value).Ok?
    else
      Given(q.dataUri)
      && (if IsHl(q.dataUri.value) then FromHl(q.dataUri.value).Ok?
          else if IsHttpUri(q.dataUri.value) then UrlCanName(q.dataUri.value)
          else IsNiOrDigest(q.dataUri.value) && EqualityId(q.dataUri.value).Ok?)
  }

  ghost predicate AgreeIn(history: seq<Call>, q: Request, locators: Locators) {
    Agree(ResolveOrderId(Replay(history), None, q, locators), SelectPrior(Replay(history), q, locators))
  }

  /** In the excepted shape link never selects a BOM, while node init goes on to the data fields. */
  lemma BlankSolidFails(s: Files, q: Request, locators: Locators)
    requires BlankSolid(q)
    ensures SelectPrior(s, q, locators) == Failed
    ensures ResolveOrderId(s, None, q, locators) == ResolveOrderId(s, None, q.(bomSolidUri := None), locators)
  {
  }

  /** What a value that cannot name data leads to. */
  lemma NoDataRefused(s: Files, q: Request, locators: Locators)
    requires BlankSolid(q) && !NamesData(q)
    ensures var init := ResolveOrderId(s, None, q, locators); init == Refused(400) || init == Refused(404)
  {
    var direct := Or(q.contentId, q.hl);
    if Given(direct) {
      ValueRefused(direct.value, locators);
      DataRefused(s, direct.value);
    } else if Given(q.dataUri) {
      UriRefused(q.dataUri.value, locators);
    }
    forall id | ContentIdFsKey(id).Err? ensures InitByData(s, id) == Refused(400) {
      DataRefused(s, id);
    }
  }

  /** Which refusal: 404 for a BOM without a record and for data without a run, 409 for data with several runs, 400 for
      data that cannot be filed and for a request that names nothing. */
  lemma RefusalsAre(s: Files, q: Request, data: string, bom: string, locators: Locators)
    ensures ResolveOrderId(s, None, NO_FIELDS, locators) == Refused(400)
    ensures data != [] && !IsHl(data) && !IsHttpUri(data) ==>
      var init := ResolveOrderId(s, None, NO_FIELDS.(contentId := Some(data)), locators);
      && (init == Refused(400) <==> ContentIdFsKey(data).Err?)
      && (LookupBom(s, data) == Ok([]) ==> init == Refused(404))
      && (init == Refused(409) <==> LookupBom(s, data).Ok? && |LookupBom(s, data).value| > 1)
    ensures IsNiOrDigest(bom) && !IsHl(bom) && EqualityId(bom).Ok? && LookupOrder(s, bom) == Ok(None) ==>
      ResolveOrderId(s, None, NO_FIELDS.(bomUri := Some(bom)), locators) == Refused(404)
  {
    if IsNiOrDigest(bom) && !IsHl(bom) && EqualityId(bom).Ok? && LookupOrder(s, bom) == Ok(None) {
      BomRefused(s, bom, locators);
    }
    if data != [] && !IsHl(data) && !IsHttpUri(data) {
      DataRefusal(s, data, locators);
    }
  }

  lemma BomRefused(s: Files, bom: string, locators: Locators)
    requires IsNiOrDigest(bom) && !IsHl(bom) && EqualityId(bom).Ok? && LookupOrder(s, bom) == Ok(None)
    ensures ResolveOrderId(s, None, NO_FIELDS.(bomUri := Some(bom)), locators) == Refused(404)
  {
    DigestResolves(bom, locators);
    assert ContentIdFsKey(bom).Ok?;
    DigestKeepsKey(bom);
    assert LookupOrder(s, EqualityId(bom).value) == Ok(None);
    assert bom != [];
  }

  lemma DataRefusal(s: Files, data: string, locators: Locators)
    requires data != [] && !IsHl(data) && !IsHttpUri(data)
    ensures ResolveOrderId(s, None, NO_FIELDS.(contentId := Some(data)), locators) == InitByData(s, data)
    ensures InitByData(s, data) == Refused(400) <==> ContentIdFsKey(data).Err?
    ensures LookupBom(s, data) == Ok([]) ==> InitByData(s, data) == Refused(404)
    ensures InitByData(s, data) == Refused(409) <==> LookupBom(s, data).Ok? && |LookupBom(s, data).value| > 1
  {
  }

  lemma DataRefused(s: Files, id: string)
    ensures ContentIdFsKey(id).Err? ==> InitByData(s, id) == Refused(400)
  {
  }

  /** A `data_uri` that cannot name data. */
  lemma UriRefused(value: string, locators: Locators)
    requires IsHl(value) ==> FromHl(value).Err?
    requires !IsHl(value) && IsHttpUri(value) ==> !UrlCanName(value)
    requires !IsHl(value) && !IsHttpUri(value) ==> !(IsNiOrDigest(value) && EqualityId(value).Ok?)
    ensures Resolve(value, locators).Id? ==>
      var id := Resolve(value, locators).id; ContentIdFsKey(id).Err? && !IsHl(id) && !IsHttpUri(id)
  {
    ValueRefused(value, locators);
    StripTwice(value);
  }

  /** A URL or `hl:` text that cannot name data resolves to nothing, or to an id no index can be asked for. */
  lemma ValueRefused(value: string, locators: Locators)
    requires IsHl(value) ==> FromHl(value).Err?
    requires !IsHl(value) && IsHttpUri(value) ==> !UrlCanName(value)
    ensures (IsHl(value) || IsHttpUri(value)) && Resolve(value, locators).Id? ==>
      var id := Resolve(value, locators).id; ContentIdFsKey(id).Err? && !IsHl(id) && !IsHttpUri(id)
  {
    StripTwice(value);
    StripTrims(value);
    if !IsHl(value) && IsHttpUri(value) {
      UrlRefused(value, locators);
    }
  }

  lemma UrlRefused(value: string, locators: Locators)
    requires !IsHl(value) && IsHttpUri(value) && !UrlCanName(value)
    ensures Resolve(value, locators).Id?
    ensures var id := Resolve(value, locators).id; ContentIdFsKey(id).Err? && !IsHl(id) && !IsHttpUri(id)
  {
    StripTrims(value);
    UrlIsNoDigest(value);
    StripTwice(value);
    assert UrlPath(Strip(value)) == UrlPath(value);
    BadKey(LdpKey(UrlPath(value)).value);
  }

  /** A key that cannot be filed is no URL either. */
  lemma BadKey(key: string)
    requires IsPathKey(key) && ContentIdFsKey(match ToNi(key) case Ok(ni) => ni case Err(_) => key).Err?
    ensures ToNi(key).Err? && !IsHl(key) && !IsHttpUri(key)
  {
    if ToNi(key).Ok? {
      KeyOfDigest(key);
    }
    PathKeyTrimmed(key);
    NoColonNoUrl(key);
  }

  lemma KeyOfDigest(key: string)
    requires ToNi(key).Ok?
    ensures ContentIdFsKey(ToNi(key).value).Ok?
  {
    var hex := ValidateDigestSegment(key).value;
    HexIsTrimmed(hex);
    LowerOfHex(hex);
    CanonicalIsFiled(hex);
  }

  /** Schemes end in a colon. */
  lemma NoColonNoUrl(s: string)
    requires forall i :: 0 <= i < |Strip(s)| ==> Strip(s)[i] != ':'
    ensures !IsHl(s) && !IsHttpUri(s)
  {
    var t := Strip(s);
    assert forall i :: 0 <= i < |t| ==> Lower(t)[i] == LowerChar(t[i]) != ':';
    assert "hl:"[2] == ':' && "http://"[4] == ':' && "https://"[5] == ':';
  }

  /** A locator index that lists every URL it is asked for under one id. */
  const LISTS_ALL: Locators := _ => Some("dat")

  lemma DatIsFiled()
    ensures ContentIdFsKey("dat") == Ok("dat") && !IsNiOrDigest("dat") && !IsHl("dat") && !IsHttpUri("dat")
  {
    assert Strip("dat") == "dat";
  }

  /** An id that can be filed is no URL and no hashlink. */
  lemma FiledIsNoUrl(id: string)
    requires ContentIdFsKey(id).Ok?
    ensures !IsHl(id) && !IsHttpUri(id) && id != []
  {
    StripTwice(id);
    if IsNiOrDigest(id) {
      DigestIsNoUrl(id);
    } else {
      assert !IsAlnum(':');
      NoColonNoUrl(id);
    }
    FiledNotBlank(id);
  }

  lemma CanonicalIsFiled(hex: string)
    requires IsHex64(hex)
    ensures ToNi(hex).Ok? && ContentIdFsKey(ToNi(hex).value) == Ok(hex)
  {
    NiRoundTrip(hex);
    ToNiTrimmed(hex);
  }

  lemma HlIsFiled(value: string)
    requires FromHl(value).Ok?
    ensures ContentIdFsKey(FromHl(value).value.0).Ok?
  {
    FromHlNames(value);
    var ni := FromHl(value).value.0;
    StripTwice(ni);
    FromNiNamed(ni);
    FromNiNamed(Strip(ni));
  }

  /** A URL, hashlink or digest that can name data does so, given such an index. */
  lemma ValueNames(value: string) returns (id: string)
    requires value != []
    requires if IsHl(value) then FromHl(value).Ok?
             else if IsHttpUri(value) then UrlCanName(value) else IsNiOrDigest(value) && EqualityId(value).Ok?
    ensures Resolve(value, LISTS_ALL) == Id(id) && ContentIdFsKey(id).Ok? && !IsHl(id) && !IsHttpUri(id) && id != []
  {
    if IsHl(value) {
      id := FromHl(value).value.0;
      HlNames(value);
    } else if IsHttpUri(value) {
      id := UrlNames(value);
    } else {
      id := EqualityId(value).value;
      DigestNames(value);
    }
    FiledIsNoUrl(id);
  }

  lemma HlNames(value: string)
    requires IsHl(value) && FromHl(value).Ok?
    ensures Resolve(value, LISTS_ALL) == Id(FromHl(value).value.0) && ContentIdFsKey(FromHl(value).value.0).Ok?
  {
    StripTwice(value);
    HlIsFiled(value);
  }

  lemma DigestNames(value: string)
    requires !IsHl(value) && IsNiOrDigest(value) && EqualityId(value).Ok?
    ensures Resolve(value, LISTS_ALL) == Id(EqualityId(value).value) && ContentIdFsKey(EqualityId(value).value).Ok?
  {
    StripTwice(value);
    EqualityIdIdempotent(value);
    StripTwice(Strip(value));
    CanonicalIsFiled(FromNi(value).value);
  }

  lemma UrlNames(value: string) returns (id: string)
    requires !IsHl(value) && IsHttpUri(value) && UrlCanName(value)
    ensures Resolve(value, LISTS_ALL) == Id(id) && ContentIdFsKey(id).Ok?
  {
    StripTwice(value);
    StripTrims(value);
    DatIsFiled();
    UrlIsNoDigest(value);
    UrlResolves(value);
    id := match LdpKey(UrlPath(value))
      case None => "dat"
      case Some(key) => (match ToNi(key) case Ok(ni) => ni case Err(_) => key);
  }

  lemma UrlResolves(value: string)
    requires !IsHl(value) && IsHttpUri(value) && !IsNiOrDigest(value)
    ensures Resolve(value, LISTS_ALL) == Id(match LdpKey(UrlPath(value))
      case None => "dat"
      case Some(key) => (match ToNi(key) case Ok(ni) => ni case Err(_) => key))
  {
    StripTwice(value);
    StripTrims(value);
    DatIsFiled();
    assert UrlPath(Strip(value)) == UrlPath(value);
  }

  lemma UrlIsNoDigest(value: string)
    requires IsHttpUri(value)
    ensures !IsNiOrDigest(value)
  {
    var text := Strip(value);
    assert Lower(text)[0] == 'h' && LowerChar(text[0]) == 'h' && NI_PREFIX[0] == 'n';
    assert !IsHexChar('h');
  }

  /** A request that can name data reaches the data index with an id that can be filed. */
  lemma NamedDataReached(q: Request) returns (id: string)
    requires BlankSolid(q) && NamesData(q)
    ensures ContentIdFsKey(id).Ok?
    ensures forall s :: ResolveOrderId(s, None, q, LISTS_ALL) == InitByData(s, id)
  {
    var direct := Or(q.contentId, q.hl);
    if Given(direct) {
      if IsHl(direct.value) || IsHttpUri(direct.value) {
        id := ValueNames(direct.value);
      } else {
        id := direct.value;
      }
    } else {
      id := ValueNames(q.dataUri.value);
    }
  }

  lemma FiledNotBlank(id: string)
    requires ContentIdFsKey(id).Ok?
    ensures Strip(id) != [] && id != []
  {
    StripTwice(id);
  }

  /** A record of one run. */
  function OneRecord(dataId: string): Dict {
    [Field("content_id", Str("bom")), Field("order", Str("ord")), Field("data", Str(dataId))]
  }

  /** The three fields of that record. */
  lemma OneRecordFields(dataId: string)
    ensures var d := OneRecord(dataId);
      && Get(d, "content_id") == Some(Str("bom")) && Get(d, "order") == Some(Str("ord"))
        && Get(d, "data") == Some(Str(dataId))
  {
    var d := OneRecord(dataId);
    assert d[1..] == [Field("order", Str("ord")), Field("data", Str(dataId))]
      && d[1..][1..] == [Field("data", Str(dataId))];
    assert "content_id"[0] == 'c' && "order"[0] == 'o' && "data"[0] == 'd';
    assert Get(d, "order") == Get(d[1..], "order");
    assert Get(d, "data") == Get(d[1..], "data") == Get(d[1..][1..], "data");
  }

  lemma RecordIdIs(record: Dict, key: string, legacy: string, value: string)
    requires Get(record, key) == Some(Str(value)) && value != [] && Strip(value) != []
    ensures RecordId(record, key, legacy) == Some(Strip(value))
  {
  }

  lemma OneRecordFiles(dataId: string)
    requires ContentIdFsKey(dataId).Ok?
    ensures RecordBomId(OneRecord(dataId)) == Some("bom") && RecordOrderId(OneRecord(dataId)) == Some("ord")
    ensures RecordDataId(OneRecord(dataId)) == Some(Strip(dataId))
  {
    OneRecordFields(dataId);
    assert Strip("bom") == "bom" && Strip("ord") == "ord";
    FiledNotBlank(dataId);
    RecordIdIs(OneRecord(dataId), "content_id", "bom_cid", "bom");
    RecordIdIs(OneRecord(dataId), "order", "order_cid", "ord");
    RecordIdIs(OneRecord(dataId), "data", "data_cid", dataId);
  }

  lemma FiledIds(dataId: string)
    requires ContentIdFsKey(dataId).Ok?
    ensures Filed(Some("bom")) == Ok(("bom", "bom")) && Filed(Some("ord")) == Ok(("ord", "ord"))
    ensures Filed(Some(Strip(dataId))).Ok? && Filed(Some(Strip(dataId))).value.1 == ContentIdFsKey(dataId).value
  {
    assert Strip("bom") == "bom" && Strip("ord") == "ord";
    StripTwice(dataId);
    FsKeyAgreesWithNormalForm(Strip(dataId), Strip(dataId));
    NormalFormKey(Strip(dataId));
  }

  lemma OneFiling(dataId: string)
    requires ContentIdFsKey(dataId).Ok?
    ensures var f := FilingOf(OneRecord(dataId));
      f.Ok? && f.value.bom == "bom" && f.value.bomKey == "bom" && f.value.dataKey == ContentIdFsKey(dataId).value
    ensures Filed(RecordOrderId(OneRecord(dataId))) == Ok(("ord", "ord"))
  {
    OneRecordFiles(dataId);
    FiledIds(dataId);
  }

  lemma OneDataPut(record: Dict, key: string)
    requires FilingOf(record).Ok? && FilingOf(record).value.dataKey == key
    ensures DataPuts([Call(record, 3)], key) == [FilingOf(record).value.bom]
    ensures Replay([Call(record, 3)]) == PutUpTo(EMPTY, record, 3)
  {
    OneCall(Call(record, 3), key);
    FilingIs(record);
    KeyedPut(record, key);
  }

  lemma KeyedPut(record: Dict, key: string)
    requires Usable(record) && Ok(key) == ContentIdFsKey(RecordDataId(record).value)
    ensures DataPut(Call(record, 3), key) == [BomOf(record)]
  {
  }

  lemma OneCall(call: Call, key: string)
    ensures DataPuts([call], key) == DataPut(call, key)
    ensures Replay([call]) == PutUpTo(EMPTY, call.record, call.stop)
  {
    assert [call][..0] == [] && DataPuts([call][..0], key) == [];
    assert [] + DataPut(call, key) == DataPut(call, key);
  }

  /** After the one put, the data id finds the run. */
  lemma OnePutFinds(dataId: string)
    requires ContentIdFsKey(dataId).Ok?
    ensures InitByData(Replay([Call(OneRecord(dataId), 3)]), dataId) == Accepted("ord")
  {
    var record := OneRecord(dataId);
    OneFiling(dataId);
    OneDataPut(record, ContentIdFsKey(dataId).value);
    UniqueIffSole([Call(record, 3)], dataId, "bom");
    BomIsFiled();
    PutThenLookupOrder(EMPTY, record, 3, "bom");
  }

  lemma BomIsFiled()
    ensures ContentIdFsKey("bom") == Ok("bom")
  {
    assert Strip("bom") == "bom";
  }

  /** The exact condition in the excepted shape: the two sides agree in every registry history and locator index if and
      only if no data field of the request can resolve to an id that can be filed. */
  lemma BlankSolidIff(q: Request)
    requires BlankSolid(q)
    ensures (forall history, locators :: AgreeIn(history, q, locators)) <==> !NamesData(q)
  {
    if NamesData(q) {
      var id := NamedDataReached(q);
      var history := [Call(OneRecord(id), 3)];
      OnePutFinds(id);
      BlankSolidFails(Replay(history), q, LISTS_ALL);
      assert ResolveOrderId(Replay(history), None, q, LISTS_ALL) == Accepted("ord");
      assert !AgreeIn(history, q, LISTS_ALL);
    } else {
      forall history, locators ensures AgreeIn(history, q, locators) {
        NoDataRefused(Replay(history), q, locators);
        BlankSolidFails(Replay(history), q, locators);
      }
    }
  }

  /** A concrete request on which they differ, after one ordinary put. */
  lemma BlankSolidWitness(locators: Locators)
    ensures var s := PutUpTo(EMPTY, OneRecord("dat"), 3);
      var q := Request(None, None, Some(""), Some("dat"), None, None);
      ResolveOrderId(s, None, q, locators) == Accepted("ord") && SelectPrior(s, q, locators) == Failed
  {
    DatIsFiled();
    OnePutFinds("dat");
    var history := [Call(OneRecord("dat"), 3)];
    assert history[..0] == [];
    assert Replay(history) == PutUpTo(EMPTY, OneRecord("dat"), 3);
  }
}
