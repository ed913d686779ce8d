/** Locator index: content id to HTTP locators, with a reverse scan (cats/network/cas/locators.py). */
module Locators {
  import opened Digest
  import opened Text
  import opened Wrappers

  datatype Locator = Locator(uri: string, mediaType: Option<string>)

  datatype Doc = Doc(contentId: string, locators: seq<Locator>)

  /** One JSON document per file key. */
  type Docs = map<string, Doc>

  /** A call of `put`. */
  datatype Registration = Registration(id: string, uri: string, mediaType: Option<string>)

  predicate Lists(locators: seq<Locator>, uri: string) {
    exists i :: 0 <= i < |locators| && locators[i].uri == uri
  }

  /** The index after one `put`; a malformed id raises before anything is written. */
  function Registered(docs: Docs, r: Registration): Docs {
    match NormalizeContentId(r.id)
    case Err(_) => docs
    case Ok(canonical) =>
      match ContentIdFsKey(canonical)
      case Err(_) => docs
      case Ok(key) =>
        var was := if key in docs then docs[key].locators else [];
        docs[key := Doc(canonical, if Lists(was, r.uri) then was else [Locator(r.uri, r.mediaType)] + was)]
  }

  function Uris(locators: seq<Locator>): (us: seq<string>)
    ensures forall u :: u in us <==> u != [] && Lists(locators, u)
  {
    if locators == [] then []
    else
      assert locators == [locators[0]] + locators[1..];
      (if locators[0].uri != [] then [locators[0].uri] else []) + Uris(locators[1..])
  }

  function LookupUris(docs: Docs, id: string): Result<seq<string>> {
    var key :- ContentIdFsKey(id);
    Ok(if key in docs then Uris(docs[key].locators) else [])
  }

  function CanonicalId(id: string): Result<string> {
    if IsNiOrDigest(id) then var hex :- FromNi(id); ToNi(hex) else Ok(Strip(id))
  }

  /** The scan over the files in directory order: the first document that lists the URI and has an id. */
  function Scan(docs: Docs, order: seq<string>, target: string): Result<Option<string>>
    requires forall k :: k in order ==> k in docs
  {
    if order == [] then Ok(None)
    else
      var doc := docs[order[0]];
      if Lists(doc.locators, target) && Strip(doc.contentId) != [] then
        var id :- CanonicalId(doc.contentId); Ok(Some(id))
      else Scan(docs, order[1..], target)
  }

  function Find(docs: Docs, order: seq<string>, uri: string): Result<Option<string>>
    requires forall k :: k in order ==> k in docs
  {
    if Strip(uri) == [] then Ok(None) else Scan(docs, order, Strip(uri))
  }

  lemma ListsSnoc(locators: seq<Locator>, i: nat, uri: string)
    requires i < |locators|
    ensures Lists(locators[..i + 1], uri) <==> Lists(locators[..i], uri) || locators[i].uri == uri
  {
    assert locators[..i + 1] == locators[..i] + [locators[i]];
    if Lists(locators[..i], uri) {
      var j :| 0 <= j < i && locators[..i][j].uri == uri;
      assert locators[..i + 1][j].uri == uri;
    }
    assert locators[..i + 1][i] == locators[i];
  }

  class LocatorIndex {
    var docs: Docs

    constructor ()
      ensures docs == map[]
    {
      docs := map[];
    }

    method Put(id: string, uri: string, mediaType: Option<string>) returns (r: Result<string>)
      modifies this
      ensures docs == Registered(old(docs), Registration(id, uri, mediaType))
      ensures r == (match NormalizeContentId(id) case Err(e) => Err(e) case Ok(n) => ContentIdFsKey(n))
    {
      var canonical :- NormalizeContentId(id);
      var key :- ContentIdFsKey(canonical);
      var locators := if key in docs then docs[key].locators else [];
      var known := Known(locators, uri);
      var now := if known then locators else [Locator(uri, mediaType)] + locators;
      docs := docs[key := Doc(canonical, now)];
      return Ok(key);
    }

    /** Whether some locator has the URI. */
    static method Known(locators: seq<Locator>, uri: string) returns (known: bool)
      ensures known <==> Lists(locators, uri)
    {
      known := false;
      for i := 0 to |locators|
        invariant known <==> Lists(locators[..i], uri)
      {
        ListsSnoc(locators, i, uri);
        if locators[i].uri == uri {
          known := true;
        }
      }
      assert locators[..|locators|] == locators;
    }

    method FindContentIdForUri(uri: string, order: seq<string>) returns (r: Result<Option<string>>)
      requires forall k :: k in order ==> k in docs
      ensures r == Find(docs, order, uri)
    {
      var target := Strip(uri);
      if target == [] {
        return Ok(None);
      }
      for i := 0 to |order|
        invariant Scan(docs, order, target) == Scan(docs, order[i..], target)
      {
        var doc := docs[order[i]];
        assert order[i..][1..] == order[i + 1..];
        if Lists(doc.locators, target) && Strip(doc.contentId) != [] {
          var id :- CanonicalId(doc.contentId);
          return Ok(Some(id));
        }
      }
      return Ok(None);
    }
  }

  // --- every run of puts -----------------------------------------------------------------------------

  function Replay(history: seq<Registration>): Docs {
    if history == [] then map[] else Registered(Replay(history[..|history| - 1]), history[|history| - 1])
  }

  /** The source's own callers register trimmed, non-empty URIs. */
  ghost predicate Tidy(history: seq<Registration>) {
    forall i :: 0 <= i < |history| ==> history[i].uri != [] && Trimmed(history[i].uri)
  }

  /** Some call registered the URI under the key. */
  ghost predicate Told(history: seq<Registration>, key: string, uri: string) {
    exists i :: 0 <= i < |history| && history[i].uri == uri && ContentIdFsKey(history[i].id) == Ok(key)
  }

  ghost predicate DistinctUris(locators: seq<Locator>) {
    forall i, j :: 0 <= i < j < |locators| ==> locators[i].uri != locators[j].uri
  }

  /** The document filed under a key names that key, and lists each URI once. */
  ghost predicate WellFiled(docs: Docs) {
    forall k :: k in docs ==>
      && NormalizeContentId(docs[k].contentId) == Ok(docs[k].contentId)
      && ContentIdFsKey(docs[k].contentId) == Ok(k)
      && DistinctUris(docs[k].locators)
  }

  /** The document filed under the key lists the URI. */
  ghost predicate Entry(docs: Docs, k: string, u: string) {
    k in docs && Lists(docs[k].locators, u)
  }

  lemma RegisteredEffect(docs: Docs, r: Registration, k: string, u: string)
    ensures Entry(Registered(docs, r), k, u) <==>
      Entry(docs, k, u) || (r.uri == u && ContentIdFsKey(r.id) == Ok(k))
  {
    FsKeyAgreesWithNormalForm(r.id, r.id);
    if NormalizeContentId(r.id).Ok? {
      NormalFormKey(r.id);
      var key := ContentIdFsKey(r.id).value;
      var was := if key in docs then docs[key].locators else [];
      var now := [Locator(r.uri, r.mediaType)] + was;
      assert Lists(now, u) <==> Lists(was, u) || u == r.uri by {
        assert now[0].uri == r.uri && now[1..] == was;
        if Lists(was, u) {
          var i :| 0 <= i < |was| && was[i].uri == u;
          assert now[i + 1].uri == u;
        }
      }
    }
  }

  lemma RegisteredWellFiled(docs: Docs, r: Registration)
    requires WellFiled(docs)
    ensures WellFiled(Registered(docs, r))
  {
    FsKeyAgreesWithNormalForm(r.id, r.id);
    if NormalizeContentId(r.id).Ok? {
      NormalFormKey(r.id);
      var canonical := NormalizeContentId(r.id).value;
      var key := ContentIdFsKey(canonical).value;
      var was := if key in docs then docs[key].locators else [];
      StaysDistinct(was, Locator(r.uri, r.mediaType));
      var now := docs[key := Doc(canonical, if Lists(was, r.uri) then was else [Locator(r.uri, r.mediaType)] + was)];
      assert Registered(docs, r) == now;
      forall k | k in now
        ensures NormalizeContentId(now[k].contentId) == Ok(now[k].contentId)
          && ContentIdFsKey(now[k].contentId) == Ok(k)
        ensures DistinctUris(now[k].locators)
      {
        if k != key {
          assert k in docs && now[k] == docs[k];
        }
      }
    }
  }

  lemma StaysDistinct(was: seq<Locator>, new_: Locator)
    requires DistinctUris(was)
    ensures DistinctUris(if Lists(was, new_.uri) then was else [new_] + was)
  {
  }

  lemma ToldSnoc(front: seq<Registration>, last: Registration, k: string, u: string)
    ensures Told(front + [last], k, u) <==> Told(front, k, u) || (last.uri == u && ContentIdFsKey(last.id) == Ok(k))
  {
    var h := front + [last];
    if Told(front, k, u) {
      var i :| 0 <= i < |front| && front[i].uri == u && ContentIdFsKey(front[i].id) == Ok(k);
      assert h[i] == front[i];
    }
    assert h[|front|] == last;
  }

  lemma {:induction false} IndexEntry(history: seq<Registration>, k: string, u: string)
    ensures Entry(Replay(history), k, u) <==> Told(history, k, u)
  {
    if history == [] {
      EmptyEntry(history, k, u);
    } else {
      var front := history[..|history| - 1];
      IndexEntry(front, k, u);
      EntryStep(history, front, history[|history| - 1], k, u);
    }
  }

  lemma EmptyEntry(history: seq<Registration>, k: string, u: string)
    requires history == []
    ensures !Entry(Replay(history), k, u) && !Told(history, k, u)
  {
  }

  /** One more put. */
  lemma EntryStep(history: seq<Registration>, front: seq<Registration>, last: Registration, k: string, u: string)
    requires history == front + [last] && (Entry(Replay(front), k, u) <==> Told(front, k, u))
    ensures Entry(Replay(history), k, u) <==> Told(history, k, u)
  {
    assert history[..|history| - 1] == front;
    ToldSnoc(front, last, k, u);
    RegisteredEffect(Replay(front), last, k, u);
  }

  lemma {:induction false} IndexWellFiled(history: seq<Registration>)
    ensures WellFiled(Replay(history))
  {
    if history != [] {
      IndexWellFiled(history[..|history| - 1]);
      RegisteredWellFiled(Replay(history[..|history| - 1]), history[|history| - 1]);
    }
  }

  /** After any run of puts each document lists each URI once, under the canonical id of its own key,
      and a key lists a URI exactly when some call registered it. */
  lemma IndexIsHistory(history: seq<Registration>)
    ensures WellFiled(Replay(history))
    ensures forall k, u :: Entry(Replay(history), k, u) <==> Told(history, k, u)
  {
    IndexWellFiled(history);
    forall k, u ensures Entry(Replay(history), k, u) <==> Told(history, k, u) {
      IndexEntry(history, k, u);
    }
  }

  /** The forward lookup, for any spelling of the id. */
  lemma LookupIsHistory(history: seq<Registration>, id: string, uri: string)
    requires Tidy(history) && ContentIdFsKey(id).Ok?
    ensures LookupUris(Replay(history), id).Ok?
    ensures uri in LookupUris(Replay(history), id).value <==> Told(history, ContentIdFsKey(id).value, uri)
  {
    IndexIsHistory(history);
  }

  /** What one put does to the forward lookup, for any spelling of either id: the URI comes first unless it was listed,
      and the URIs of other ids stay. */
  lemma PutThenLookup(docs: Docs, r: Registration, id: string)
    requires ContentIdFsKey(r.id).Ok? && ContentIdFsKey(id).Ok? && r.uri != []
    ensures LookupUris(docs, id).Ok?
    ensures var (before, after) := (LookupUris(docs, id).value, LookupUris(Registered(docs, r), id));
      after == Ok(if ContentIdFsKey(id) == ContentIdFsKey(r.id) && r.uri !in before then [r.uri] + before else before)
  {
    FsKeyAgreesWithNormalForm(r.id, r.id);
    NormalFormKey(r.id);
    var key := ContentIdFsKey(id).value;
    var was := if key in docs then docs[key].locators else [];
    var now := [Locator(r.uri, r.mediaType)] + was;
    assert Uris(was) == LookupUris(docs, id).value;
    assert now[1..] == was && Uris(now) == [r.uri] + Uris(was);
  }

  /** The file of the id holds its canonical form, and the media type that was registered with a new URI. */
  lemma PutFiles(docs: Docs, r: Registration)
    requires ContentIdFsKey(r.id).Ok?
    ensures NormalizeContentId(r.id).Ok?
    ensures var (key, after) := (ContentIdFsKey(r.id).value, Registered(docs, r));
      && key in after && after == docs[key := after[key]]
      && after[key].contentId == NormalizeContentId(r.id).value
      && after[key].locators ==
           (if key !in docs then [Locator(r.uri, r.mediaType)]
            else if exists i :: 0 <= i < |docs[key].locators| && docs[key].locators[i].uri == r.uri
            then docs[key].locators
            else [Locator(r.uri, r.mediaType)] + docs[key].locators)
  {
    FsKeyAgreesWithNormalForm(r.id, r.id);
    NormalFormKey(r.id);
  }

  lemma {:induction false} ScanFinds(docs: Docs, order: seq<string>, target: string)
    requires WellFiled(docs) && forall k :: k in order ==> k in docs
    ensures Scan(docs, order, target).Ok?
    ensures match Scan(docs, order, target).value
      case None => forall k :: k in order ==> !Lists(docs[k].locators, target)
      case Some(c) => exists k :: k in order && Lists(docs[k].locators, target) && c == docs[k].contentId
  {
    if order != [] {
      var k := order[0];
      assert k in order;
      NormalFormKey(docs[k].contentId);
      CanonicalOfNormalForm(docs[k].contentId);
      ScanFinds(docs, order[1..], target);
      assert forall j :: j in order <==> j == k || j in order[1..];
    }
  }

  lemma CanonicalOfNormalForm(id: string)
    requires NormalizeContentId(id) == Ok(id)
    ensures Strip(id) != [] && CanonicalId(id) == Ok(id)
  {
    NormalFormTrimmed(id);
  }

  /** What the scan finds lists the URI, and it finds something if anything does. */
  lemma FindListed(history: seq<Registration>, order: seq<string>, uri: string)
    requires Tidy(history) && uri != [] && Trimmed(uri)
    requires forall k :: k in order <==> k in Replay(history)
    ensures Find(Replay(history), order, uri).Ok?
    ensures match Find(Replay(history), order, uri).value
      case None => forall k :: !Told(history, k, uri)
      case Some(c) =>
        && LookupUris(Replay(history), c).Ok? && uri in LookupUris(Replay(history), c).value
        && NormalizeContentId(c) == Ok(c) && Told(history, ContentIdFsKey(c).value, uri)
  {
    IndexIsHistory(history);
    var docs := Replay(history);
    ScanFinds(docs, order, uri);
    match Find(docs, order, uri).value {
      case None =>
      case Some(c) =>
        var k :| k in order && Lists(docs[k].locators, uri) && c == docs[k].contentId;
        LookupIsHistory(history, c, uri);
    }
  }

  /** The reverse scan, in whatever order the directory is listed: it finds an id that really lists the
      URI, gives up only when no id does, and is the exact inverse of registration when a URI was
      registered for one id only, however that id was spelled. */
  lemma FindIsHistory(history: seq<Registration>, order: seq<string>, uri: string)
    requires Tidy(history) && uri != [] && Trimmed(uri)
    requires forall k :: k in order <==> k in Replay(history)
    ensures Find(Replay(history), order, uri).Ok?
    ensures match Find(Replay(history), order, uri).value
      case None => forall k :: !Told(history, k, uri)
      case Some(c) =>
        && LookupUris(Replay(history), c).Ok? && uri in LookupUris(Replay(history), c).value
        && NormalizeContentId(c) == Ok(c)
        && Told(history, ContentIdFsKey(c).value, uri)
    ensures forall id :: Told1(history, id, uri) ==>
      Find(Replay(history), order, uri).value == Some(NormalizeContentId(id).value)
  {
    var docs := Replay(history);
    FindListed(history, order, uri);
    forall id | Told1(history, id, uri)
      ensures Find(docs, order, uri).value == Some(NormalizeContentId(id).value)
    {
      var c := Find(docs, order, uri).value;
      if c.Some? {
        FsKeyAgreesWithNormalForm(c.value, id);
      }
    }
  }

  /** The URI was registered, and only ever for spellings of one id. */
  ghost predicate Told1(history: seq<Registration>, id: string, uri: string) {
    && NormalizeContentId(id).Ok? && ContentIdFsKey(id).Ok?
    && Told(history, ContentIdFsKey(id).value, uri)
    && forall k :: Told(history, k, uri) ==> k == ContentIdFsKey(id).value
  }
}
