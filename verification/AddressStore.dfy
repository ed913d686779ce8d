/** Verified content-addressed reads (cats/network/address_store/store.py) and materialized trees
    (`materialize_tree` of cats/network/cas/manifest.py). */
module AddressStore {
  import opened Cas
  import opened Codec
  import opened ContentRef
  import opened Digest
  import opened DirWalk
  import opened Hashlink
  import opened Manifest
  import opened Residue
  import opened Sorting
  import opened Text
  import opened Wrappers
  import Index = Locators

  /** Node-local state: blobs, locator index (with the order its directory lists), and the two LDP stores. */
  datatype Home = Home(
    blobs: Blobs, index: Index.Docs, order: seq<string>,
    invoices: map<string, seq<Byte>>, orders: map<string, seq<Byte>>)

  /** `cats_home` may be unset. */
  type World = Option<Home>

  ghost predicate Listed(w: World) {
    w.Some? ==> forall k :: k in w.value.order <==> k in w.value.index
  }

  /** What a GET answers, at each moment and whatever it pleases; `None` is a failed request. */
  type Peers = (nat, string) -> Option<seq<Byte>>

  /** `_CAS_PATH`. */
  function CasPathDigest(path: string): Option<string> {
    if CAS_PATH <= path && IsHex64(path[9..]) then Some(path[9..]) else None
  }

  function AlnumAfter(prefix: string, path: string): Option<string> {
    if prefix <= path && IsCidSegment(path[|prefix|..]) then Some(path[|prefix|..]) else None
  }

  function DigestOfKey(key: string): Option<string> {
    match ValidateDigestSegment(key) case Ok(d) => Some(d) case Err(_) => None
  }

  function FromStore(store: map<string, seq<Byte>>, key: string): Result<Option<(seq<Byte>, Option<string>)>> {
    var file :- ContentIdFsKey(key);
    Ok(if file in store then Some((store[file], DigestOfKey(key))) else None)
  }

  /** `_local_ldp_bytes`: the bytes and the digest the path promises, if any. */
  function LocalLdp(w: World, uri: string): Result<Option<(seq<Byte>, Option<string>)>>
    requires IsHttpUri(uri)
  {
    if w.None? then Ok(None)
    else
      var path := RawUrlPath(uri);
      match CasPathDigest(path)
      case Some(d) => Ok(if d in w.value.blobs then Some((w.value.blobs[d], Some(d))) else None)
      case None =>
        match AlnumAfter("/ldp/invoices/", path)
        case Some(key) => FromStore(w.value.invoices, key)
        case None =>
          match AlnumAfter("/ldp/orders/", path)
          case Some(key) => FromStore(w.value.orders, key)
          case None => Ok(None)
  }

  /** `_resolve_expect_digest`. */
  function ExpectDigest(w: World, uri: string, want: Option<string>): Result<Option<string>>
    requires IsHttpUri(uri)
    requires w.Some? ==> forall k :: k in w.value.order ==> k in w.value.index
  {
    if want.Some? && want.value != [] then
      var d :- if IsNiOrDigest(want.value) then FromNi(want.value) else ValidateDigestSegment(want.value);
      Ok(Some(d))
    else match CasPathDigest(RawUrlPath(uri))
      case Some(d) => Ok(Some(d))
      case None =>
        if w.None? then Ok(None)
        else
          var found :- Index.Find(w.value.index, w.value.order, uri);
          if found.Some? && IsNiOrDigest(found.value) then var d :- FromNi(found.value); Ok(Some(d))
          else Ok(None)
  }

  /** The digest an id commits to, when it is not a bare URL. */
  function Commitment(id: string): Result<string> {
    if IsHl(id) then var (ni, _) :- FromHl(Strip(id)); FromNi(ni) else FromNi(id)
  }

  /** The bytes are what the id commits to. */
  ghost predicate Verified(sha: Sha, id: string, data: seq<Byte>) {
    IsHl(id) || !IsHttpUri(id) ==> Commitment(id) == Ok(sha(data))
  }

  /** A read that needs no trust: the id, or the CAS path of the URL, fixes the bytes. */
  predicate Committing(id: string) {
    IsHl(id) || !IsHttpUri(id) || CasPathDigest(RawUrlPath(id)).Some?
  }

  /** The digest a committing id fixes. */
  function FixedDigest(id: string): Result<string>
    requires Committing(id)
  {
    if IsHl(id) || !IsHttpUri(id) then Commitment(id) else Ok(CasPathDigest(RawUrlPath(id)).value)
  }

  // --- when a read succeeds --------------------------------------------------------------------------

  /** Asked one after another, the first of the peers that answers is number `i`. */
  ghost predicate FirstAnswer(peers: Peers, clock: nat, uris: seq<string>, i: nat) {
    i < |uris| && peers(clock + i, uris[i]).Some? && forall j :: 0 <= j < i ==> peers(clock + j, uris[j]).None?
  }

  ghost predicate NoAnswer(peers: Peers, clock: nat, uris: seq<string>) {
    forall j :: 0 <= j < |uris| ==> peers(clock + j, uris[j]).None?
  }

  /** The read gives these bytes if they have the digest, and fails otherwise. */
  ghost predicate GivesIf(sha: Sha, digest: string, data: seq<Byte>, r: Result<seq<Byte>>) {
    if sha(data) == digest then r == Ok(data) else r.Err?
  }

  /** The outcome of asking the listed peers: the first answer decides. */
  ghost predicate AskedPeers(sha: Sha, peers: Peers, clock: nat, uris: seq<string>, digest: string,
                             r: Result<seq<Byte>>) {
    && (NoAnswer(peers, clock, uris) ==> r.Err?)
    && (forall i: nat :: FirstAnswer(peers, clock, uris, i) ==>
          GivesIf(sha, digest, peers(clock + i, uris[i]).value, r))
  }

  /** The outcome of reading a bare `ni:` or hex id: the blob on disk decides, and only without one the peers listed for
      the id. */
  ghost predicate DigestRead(sha: Sha, w: World, peers: Peers, clock: nat, id: string, r: Result<seq<Byte>>) {
    match FromNi(id)
    case Err(_) => r.Err?
    case Ok(digest) =>
      if w.None? then r.Err?
      else if digest in w.value.blobs then GivesIf(sha, digest, w.value.blobs[digest], r)
      else
        var uris := Index.LookupUris(w.value.index, id);
        uris.Ok? && AskedPeers(sha, peers, clock, uris.value, digest, r)
  }

  /** A verified answer, or the error of one that has another digest. */
  ghost predicate Answered(sha: Sha, id: string, data: seq<Byte>, r: Result<Option<seq<Byte>>>) {
    if FromNi(id) == Ok(sha(data)) then r == Ok(Some(data)) else r.Err?
  }

  ghost predicate AskedInTurn(sha: Sha, peers: Peers, clock: nat, uris: seq<string>, id: string,
                              r: Result<Option<seq<Byte>>>) {
    && (NoAnswer(peers, clock, uris) ==> r == Ok(None))
    && (forall i: nat :: FirstAnswer(peers, clock, uris, i) ==>
          Answered(sha, id, peers(clock + i, uris[i]).value, r))
  }

  method CheckAnswer(sha: Sha, id: string, data: seq<Byte>) returns (r: Result<Option<seq<Byte>>>)
    ensures Answered(sha, id, data, r)
  {
    var digest :- FromNi(id);
    return if sha(data) != digest then Err("CAS locator verify failed") else Ok(Some(data));
  }

  method AskInTurn(sha: Sha, peers: Peers, clock: nat, uris: seq<string>, id: string)
    returns (r: Result<Option<seq<Byte>>>, now: nat)
    ensures AskedInTurn(sha, peers, clock, uris, id, r)
    ensures r.Ok? && r.value.Some? ==> FromNi(id) == Ok(sha(r.value.value))
    ensures now >= clock
  {
    now := clock;
    for i := 0 to |uris|
      invariant now == clock + i && forall j :: 0 <= j < i ==> peers(clock + j, uris[j]).None?
    {
      var data := peers(now, uris[i]);
      now := now + 1;
      if data.Some? {
        assert FirstAnswer(peers, clock, uris, i);
        r := CheckAnswer(sha, id, data.value);
        return;
      }
    }
    return Ok(None), now;
  }

  /** Without a home nothing is listed; with one the peers listed for the id are asked in turn, until one answers. */
  method CasLocatorBytes(sha: Sha, w: World, peers: Peers, clock: nat, id: string)
    returns (r: Result<Option<seq<Byte>>>, now: nat)
    ensures r.Ok? && r.value.Some? ==> FromNi(id) == Ok(sha(r.value.value))
    ensures w.None? ==> r == Ok(None)
    ensures w.Some? && Index.LookupUris(w.value.index, id).Err? ==> r.Err?
    ensures w.Some? && Index.LookupUris(w.value.index, id).Ok? ==>
      AskedInTurn(sha, peers, clock, Index.LookupUris(w.value.index, id).value, id, r)
    ensures now >= clock
  {
    if w.None? {
      return Ok(None), clock;
    }
    var uris := Index.LookupUris(w.value.index, id);
    if uris.Err? {
      return Err(uris.message), clock;
    }
    r, now := AskInTurn(sha, peers, clock, uris.value, id);
  }

  /** The read of a bare `ni:` or hex id. */
  method CatDigest(sha: Sha, w: World, peers: Peers, clock: nat, id: string) returns (r: Result<seq<Byte>>, now: nat)
    requires IsNiOrDigest(id)
    ensures r.Ok? ==> FromNi(id) == Ok(sha(r.value))
    ensures DigestRead(sha, w, peers, clock, id, r)
    ensures now >= clock
  {
    FromNiNamed(id);
    StripTwice(id);
    now := clock;
    var data: Option<seq<Byte>> := None;
    if w.Some? {
      var local := GetBlob(w.value.blobs, id);
      if local.Err? {
        return Err(local.message), now;
      }
      data := local.value;
    }
    if data.None? {
      var remote;
      remote, now := CasLocatorBytes(sha, w, peers, now, id);
      if remote.Err? {
        return Err(remote.message), now;
      }
      data := remote.value;
    }
    if data.None? {
      return Err("CAS content not found"), now;
    }
    if sha(data.value) != FromNi(id).value {
      return Err("CAS sha256 mismatch"), now;
    }
    return Ok(data.value), now;
  }

  /** The bytes behind a URL, the digest a local file promises for itself, and the time afterwards. */
  function UrlBytes(w: World, peers: Peers, clock: nat, uri: string): Result<(seq<Byte>, Option<string>, nat)>
    requires IsHttpUri(uri)
  {
    var local :- LocalLdp(w, uri);
    match local
    case Some((data, promised)) => Ok((data, promised, clock))
    case None =>
      match peers(clock, uri)
      case Some(data) => Ok((data, None, clock + 1))
      case None => Err("request failed")
  }

  /** The read of a URL: what the bytes are compared with is the expected digest, else the promised one. */
  function ReadUrl(sha: Sha, w: World, peers: Peers, clock: nat, uri: string, want: Option<string>): Result<seq<Byte>>
    requires IsHttpUri(uri) && Listed(w)
  {
    var (data, promised, _) :- UrlBytes(w, peers, clock, uri);
    var expected :- ExpectDigest(w, uri, want);
    var digest := if expected.Some? then expected else promised;
    if digest.Some? && sha(data) != digest.value then Err("URI sha256 mismatch") else Ok(data)
  }

  method CatHttp(sha: Sha, w: World, peers: Peers, clock: nat, uri: string, want: Option<string>)
    returns (r: Result<seq<Byte>>, now: nat)
    requires IsHttpUri(uri) && Listed(w)
    ensures r.Ok? <==> ReadUrl(sha, w, peers, clock, uri, want).Ok?
    ensures r.Ok? ==> r == ReadUrl(sha, w, peers, clock, uri, want)
    ensures now >= clock
  {
    now := clock;
    var local := LocalLdp(w, uri);
    if local.Err? {
      return Err(local.message), now;
    }
    var data: seq<Byte>;
    var pathDigest: Option<string> := None;
    if local.value.Some? {
      data, pathDigest := local.value.value.0, local.value.value.1;
    } else {
      var got := peers(now, uri);
      now := now + 1;
      if got.None? {
        return Err("request failed"), now;
      }
      data := got.value;
    }
    var expected := ExpectDigest(w, uri, want);
    if expected.Err? {
      return Err(expected.message), now;
    }
    var digest := if expected.value.Some? then expected.value else pathDigest;
    if digest.Some? && sha(data) != digest.value {
      return Err("URI sha256 mismatch"), now;
    }
    return Ok(data), now;
  }

  /** What a successful read of a URL was compared with. */
  lemma ReadUrlChecked(sha: Sha, w: World, peers: Peers, clock: nat, uri: string, want: Option<string>)
    requires IsHttpUri(uri) && Listed(w) && ReadUrl(sha, w, peers, clock, uri, want).Ok?
    ensures ExpectDigest(w, uri, want).Ok? && LocalLdp(w, uri).Ok?
    ensures ExpectDigest(w, uri, want).value.Some? ==>
      sha(ReadUrl(sha, w, peers, clock, uri, want).value) == ExpectDigest(w, uri, want).value.value
    ensures var local := LocalLdp(w, uri).value;
      ExpectDigest(w, uri, want).value.None? && local.Some? && local.value.1.Some? ==>
        sha(ReadUrl(sha, w, peers, clock, uri, want).value) == local.value.1.value
  {
  }

  // --- what lies behind a URL ------------------------------------------------------------------------

  /** The read of a URL gives these local bytes: compared with the expected digest, or with the one the path itself
      promises, if there is either. */
  ghost predicate GivesLocal(sha: Sha, w: World, peers: Peers, clock: nat, uri: string, want: Option<string>,
                             data: seq<Byte>, promised: Option<string>)
    requires IsHttpUri(uri) && Listed(w)
  {
    var r, expected := ReadUrl(sha, w, peers, clock, uri, want), ExpectDigest(w, uri, want);
    && (r.Ok? ==> r == Ok(data))
    && (expected == Ok(None) && promised.None? ==> r.Ok?)
    && (expected == Ok(None) && promised.Some? ==> GivesIf(sha, promised.value, data, r))
    && (expected.Ok? && expected.value.Some? ==> GivesIf(sha, expected.value.value, data, r))
  }

  lemma LocalGives(sha: Sha, w: World, peers: Peers, clock: nat, uri: string, want: Option<string>, data: seq<Byte>,
                   promised: Option<string>)
    requires IsHttpUri(uri) && Listed(w) && LocalLdp(w, uri) == Ok(Some((data, promised)))
    ensures GivesLocal(sha, w, peers, clock, uri, want, data, promised)
  {
  }

  lemma LdpPath(prefix: string, key: string)
    ensures prefix <= prefix + key && (prefix + key)[|prefix|..] == key
  {
  }

  /** The digest a path segment is, if it is one. */
  ghost function SegmentDigest(key: string): Option<string> {
    if IsHex64(Lower(Strip(key))) then Some(Lower(Strip(key))) else None
  }

  /** Invoice URLs are served from the Invoice store, */
  lemma LocalInvoice(sha: Sha, w: World, peers: Peers, clock: nat, uri: string, want: Option<string>, key: string,
                     file: string)
    requires IsHttpUri(uri) && Listed(w) && w.Some? && RawUrlPath(uri) == "/ldp/invoices/" + key
    requires IsCidSegment(key) && ContentIdFsKey(key) == Ok(file) && file in w.value.invoices
    ensures GivesLocal(sha, w, peers, clock, uri, want, w.value.invoices[file], SegmentDigest(key))
  {
    LdpPath("/ldp/invoices/", key);
    InvoiceIsNoCas(key);
    LocalGives(sha, w, peers, clock, uri, want, w.value.invoices[file], SegmentDigest(key));
  }

  lemma InvoiceIsNoCas(key: string)
    ensures CasPathDigest("/ldp/invoices/" + key).None?
  {
    assert ("/ldp/invoices/" + key)[5] == 'i' && CAS_PATH[5] == 'c';
  }

  /** Order URLs from the Order store, */
  lemma LocalOrder(sha: Sha, w: World, peers: Peers, clock: nat, uri: string, want: Option<string>, key: string,
                   file: string)
    requires IsHttpUri(uri) && Listed(w) && w.Some? && RawUrlPath(uri) == "/ldp/orders/" + key
    requires IsCidSegment(key) && ContentIdFsKey(key) == Ok(file) && file in w.value.orders
    ensures GivesLocal(sha, w, peers, clock, uri, want, w.value.orders[file], SegmentDigest(key))
  {
    LdpPath("/ldp/orders/", key);
    OrderIsNoOther(key);
    LocalGives(sha, w, peers, clock, uri, want, w.value.orders[file], SegmentDigest(key));
  }

  lemma OrderIsNoOther(key: string)
    ensures CasPathDigest("/ldp/orders/" + key).None? && AlnumAfter("/ldp/invoices/", "/ldp/orders/" + key).None?
  {
    assert ("/ldp/orders/" + key)[5] == 'o' && CAS_PATH[5] == 'c' && "/ldp/invoices/"[5] == 'i';
  }

  /** and CAS URLs from the blobs. */
  lemma LocalCas(sha: Sha, w: World, peers: Peers, clock: nat, uri: string, want: Option<string>, digest: string)
    requires IsHttpUri(uri) && Listed(w) && w.Some? && RawUrlPath(uri) == "/ldp/cas/" + digest
    requires IsHex64(digest) && digest in w.value.blobs
    ensures GivesLocal(sha, w, peers, clock, uri, want, w.value.blobs[digest], Some(digest))
  {
    LdpPath("/ldp/cas/", digest);
    LocalGives(sha, w, peers, clock, uri, want, w.value.blobs[digest], Some(digest));
  }

  /** No file of the node lies behind the URL. */
  ghost predicate NotLocal(w: World, uri: string) {
    w.Some? ==>
      && (forall d :: RawUrlPath(uri) == "/ldp/cas/" + d && IsHex64(d) ==> d !in w.value.blobs)
      && (forall key :: RawUrlPath(uri) == "/ldp/invoices/" + key && IsCidSegment(key) ==>
            ContentIdFsKey(key).Ok? && ContentIdFsKey(key).value !in w.value.invoices)
      && (forall key :: RawUrlPath(uri) == "/ldp/orders/" + key && IsCidSegment(key) ==>
            ContentIdFsKey(key).Ok? && ContentIdFsKey(key).value !in w.value.orders)
  }

  /** Anything else is asked of the peer, and its answer is compared with the expected digest, if there is one. */
  lemma AskedOfPeer(sha: Sha, w: World, peers: Peers, clock: nat, uri: string, want: Option<string>)
    requires IsHttpUri(uri) && Listed(w) && NotLocal(w, uri)
    ensures peers(clock, uri).None? ==> ReadUrl(sha, w, peers, clock, uri, want).Err?
    ensures peers(clock, uri).Some? ==>
      var r, expected := ReadUrl(sha, w, peers, clock, uri, want), ExpectDigest(w, uri, want);
      && (r.Ok? ==> r == Ok(peers(clock, uri).value))
      && (expected == Ok(None) ==> r.Ok?)
      && (expected.Ok? && expected.value.Some? ==> GivesIf(sha, expected.value.value, peers(clock, uri).value, r))
  {
    NothingLocal(w, uri);
  }

  lemma NothingLocal(w: World, uri: string)
    requires IsHttpUri(uri) && NotLocal(w, uri)
    ensures LocalLdp(w, uri) == Ok(None)
  {
    var path := RawUrlPath(uri);
    if w.Some? {
      if CAS_PATH <= path {
        PrefixSplit(path, CAS_PATH);
      } else if "/ldp/invoices/" <= path {
        PrefixSplit(path, "/ldp/invoices/");
      } else if "/ldp/orders/" <= path {
        PrefixSplit(path, "/ldp/orders/");
      }
      OnePrefix(path);
    }
  }

  lemma PrefixSplit(path: string, prefix: string)
    requires prefix <= path
    ensures path == prefix + path[|prefix|..]
  {
  }

  lemma OnePrefix(path: string)
    ensures "/ldp/invoices/" <= path ==> !(CAS_PATH <= path) && !("/ldp/orders/" <= path)
    ensures "/ldp/orders/" <= path ==> !(CAS_PATH <= path)
  {
    assert CAS_PATH[5] == 'c' && "/ldp/invoices/"[5] == 'i' && "/ldp/orders/"[5] == 'o';
  }

  /** The expected digest: the caller's, else that of a CAS path, else that of the id the index lists the URL for. */
  lemma ExpectedIs(w: World, uri: string, want: Option<string>, d: string)
    requires IsHttpUri(uri) && Listed(w)
    ensures want.Some? && want.value != [] && IsNiOrDigest(want.value) && FromNi(want.value) == Ok(d) ==>
      ExpectDigest(w, uri, want) == Ok(Some(d))
    ensures (want.None? || want.value == []) && RawUrlPath(uri) == "/ldp/cas/" + d && IsHex64(d) ==>
      ExpectDigest(w, uri, want) == Ok(Some(d))
    ensures (want.None? || want.value == []) && !("/ldp/cas/" <= RawUrlPath(uri)) && w.Some? ==>
      var found := Index.Find(w.value.index, w.value.order, uri);
      && (found.Ok? && found.value.Some? && FromNi(found.value.value) == Ok(d) ==>
            ExpectDigest(w, uri, want) == Ok(Some(d)))
      && (found == Ok(None) ==> ExpectDigest(w, uri, want) == Ok(None))
    ensures (want.None? || want.value == []) && !("/ldp/cas/" <= RawUrlPath(uri)) && w.None? ==>
      ExpectDigest(w, uri, want) == Ok(None)
  {
    LdpPath("/ldp/cas/", d);
    if w.Some? {
      var found := Index.Find(w.value.index, w.value.order, uri);
      if found.Ok? && found.value.Some? && FromNi(found.value.value).Ok? {
        FromNiNamed(found.value.value);
      }
    }
  }

  /** A digest to compare with: the caller's, the one in a CAS path, or that of an id the index lists the URL for. */
  predicate Checkable(w: World, uri: string, want: Option<string>)
    requires IsHttpUri(uri) && Listed(w)
  {
    || (want.Some? && want.value != [])
    || CasPathDigest(RawUrlPath(uri)).Some?
    || (w.Some? && var found := Index.Find(w.value.index, w.value.order, uri);
          found.Ok? && found.value.Some? && IsNiOrDigest(found.value.value))
  }

  /** Whatever peers answer and whenever they are asked, only bytes of this digest are returned. */
  ghost predicate OnlyDigest(sha: Sha, w: World, uri: string, want: Option<string>, d: string)
    requires IsHttpUri(uri) && Listed(w)
  {
    forall peers, clock ::
      ReadUrl(sha, w, peers, clock, uri, want).Ok? ==> sha(ReadUrl(sha, w, peers, clock, uri, want).value) == d
  }

  ghost predicate OneDigest(sha: Sha, w: World, uri: string, want: Option<string>)
    requires IsHttpUri(uri) && Listed(w)
  {
    exists d :: OnlyDigest(sha, w, uri, want, d)
  }

  /** When a URL that is served by peers is digest-checked: exactly when there is a digest to compare with. */
  lemma UrlCheckedIff(sha: Sha, w: World, uri: string, want: Option<string>, b: seq<Byte>, c: seq<Byte>)
    requires IsHttpUri(uri) && Listed(w) && LocalLdp(w, uri) == Ok(None) && ExpectDigest(w, uri, want).Ok?
    requires sha(b) != sha(c)
    ensures OneDigest(sha, w, uri, want) <==> Checkable(w, uri, want)
  {
    var expected := ExpectDigest(w, uri, want).value;
    assert expected.Some? <==> Checkable(w, uri, want);
    if expected.Some? {
      forall peers, clock | ReadUrl(sha, w, peers, clock, uri, want).Ok?
        ensures sha(ReadUrl(sha, w, peers, clock, uri, want).value) == expected.value
      {
        ReadUrlChecked(sha, w, peers, clock, uri, want);
      }
      assert OnlyDigest(sha, w, uri, want, expected.value);
    } else {
      AnythingGoes(sha, w, uri, want, b);
      AnythingGoes(sha, w, uri, want, c);
    }
  }

  /** Without a digest to compare with, whatever the peers agree to answer is returned. */
  lemma AnythingGoes(sha: Sha, w: World, uri: string, want: Option<string>, b: seq<Byte>)
    requires IsHttpUri(uri) && Listed(w) && LocalLdp(w, uri) == Ok(None) && ExpectDigest(w, uri, want) == Ok(None)
    ensures forall d :: OnlyDigest(sha, w, uri, want, d) ==> sha(b) == d
  {
    var peers: Peers := (_, _) => Some(b);
    assert ReadUrl(sha, w, peers, 0, uri, want) == Ok(b);
  }

  /** A space after a CAS URL is enough: the reference reader takes it for the digest, and the bytes are returned
      unchecked. */
  lemma TrailingSpaceUnchecked(sha: Sha, peers: Peers, clock: nat, hex: string, data: seq<Byte>)
    requires IsHex64(hex) && peers(clock, SpacedUrl(hex)) == Some(data)
    ensures var uri := SpacedUrl(hex);
      && IsHttpUri(uri) && !IsHl(uri) && CasPathDigest(UrlPath(uri)) == Some(hex)
      && !Committing(uri) && !Checkable(None, uri, None)
      && ReadUrl(sha, None, peers, clock, uri, None) == Ok(data)
  {
    SpacedPaths(hex);
  }

  function SpacedUrl(hex: string): string {
    "http://h" + CAS_PATH + hex + " "
  }

  lemma SpacedPaths(hex: string)
    requires IsHex64(hex)
    ensures var uri := SpacedUrl(hex);
      && IsHttpUri(uri) && !IsHl(uri) && UrlPath(uri) == CAS_PATH + hex && RawUrlPath(uri) == CAS_PATH + hex + " "
      && CasPathDigest(CAS_PATH + hex) == Some(hex) && CasPathDigest(CAS_PATH + hex + " ").None?
  {
    SpacedStrip(hex);
    SpacedRaw(hex);
    assert (CAS_PATH + hex)[9..] == hex;
    assert |(CAS_PATH + hex + " ")[9..]| == 65;
  }

  lemma SpacedStrip(hex: string)
    requires IsHex64(hex)
    ensures var uri := SpacedUrl(hex);
      Strip(uri) == "http://h" + (CAS_PATH + hex) && IsHttpUri(uri) && !IsHl(uri) && UrlPath(uri) == CAS_PATH + hex
  {
    var uri, trimmed := SpacedUrl(hex), "http://h" + (CAS_PATH + hex);
    assert uri == trimmed + " ";
    assert IsHexChar(trimmed[|trimmed| - 1]);
    StripSpace(trimmed);
    HostBase();
    PathOfConcat("http://h", CAS_PATH + hex);
    TrimmedUrl(uri, trimmed);
  }

  lemma StripSpace(trimmed: string)
    requires trimmed != [] && !IsSpace(trimmed[0]) && !IsSpace(trimmed[|trimmed| - 1])
    ensures Strip(trimmed + " ") == trimmed
  {
    var s := trimmed + " ";
    assert LStrip(s) == s && s[..|s| - 1] == trimmed && RStrip(trimmed) == trimmed;
  }

  lemma TrimmedUrl(uri: string, trimmed: string)
    requires Strip(uri) == trimmed && Strip(trimmed) == trimmed && IsHttpUri(trimmed) && !IsHl(trimmed)
    ensures IsHttpUri(uri) && !IsHl(uri) && UrlPath(uri) == UrlPath(trimmed)
  {
  }

  lemma HostBase()
    ensures HostOnly("http://h") && RStripSlash("http://h") == "http://h"
  {
  }

  lemma SpacedRaw(hex: string)
    requires IsHex64(hex)
    ensures RawUrlPath(SpacedUrl(hex)) == CAS_PATH + hex + " "
  {
    SpacedPath(hex);
    RawOnHost(CAS_PATH + hex + " ");
    SpacedIs(hex);
  }

  lemma SpacedIs(hex: string)
    ensures SpacedUrl(hex) == "http://h" + (CAS_PATH + hex + " ")
  {
  }

  lemma SpacedPath(hex: string)
    requires IsHex64(hex)
    ensures var path := CAS_PATH + hex + " "; path != [] && path[0] == '/' && NoMarks(path)
  {
    HexIsQuiet(hex);
    assert NoMarks(CAS_PATH) && NoMarks(" ");
    NoMarksConcat(CAS_PATH, hex);
    NoMarksConcat(CAS_PATH + hex, " ");
  }

  lemma RawOnHost(path: string)
    requires path != [] && path[0] == '/' && NoMarks(path)
    ensures RawUrlPath("http://h" + path) == path
  {
    PlainHostRaw(path);
    QuietEnough("h", path);
  }

  /** Nothing in it ends a path. */
  ghost predicate NoMarks(path: string) {
    forall i :: 0 <= i < |path| ==> path[i] !in {'?', '#', ';', '\t', '\r', '\n'}
  }

  lemma NoMarksConcat(a: string, b: string)
    requires NoMarks(a) && NoMarks(b)
    ensures NoMarks(a + b)
  {
  }

  lemma HexIsQuiet(hex: string)
    requires IsHex64(hex)
    ensures NoMarks(hex)
  {
    forall i | 0 <= i < |hex| ensures hex[i] !in {'?', '#', ';', '\t', '\r', '\n'} {
      assert IsHexChar(hex[i]);
    }
  }

  lemma PlainHostRaw(path: string)
    ensures RawUrlPath("http://h" + path) == PathAfterScheme("h" + path)
  {
    var uri := "http://h" + path;
    assert uri[0] == 'h' && uri[7..] == "h" + path;
    assert Lower(uri)[..7] == "http://";
  }

  /** A path without characters that mean something to the URL splitter, a space included. */
  lemma QuietEnough(host: string, path: string)
    requires forall i :: 0 <= i < |host| ==> host[i] !in {'/', '?', '#', '\t', '\r', '\n'}
    requires path != [] && path[0] == '/' && NoMarks(path)
    ensures PathAfterScheme(host + path) == path
  {
    var drop := {'\t', '\r', '\n'};
    WithoutNothing(host + path, drop);
    UntilStop(host, path, {'/', '?', '#'});
    assert (host + path)[|host|..] == path;
    UntilEnd(path, {'#'});
    UntilEnd(path, {'?'});
    DropParamsNothing(path);
  }

  /** The bytes behind a hint: those of the local file, else what the peer answers now. */
  function HintBytes(w: World, peers: Peers, clock: nat, uri: string): Option<seq<Byte>>
    requires IsHttpUri(uri)
  {
    match LocalLdp(w, uri)
    case Err(_) => None
    case Ok(Some((data, _))) => Some(data)
    case Ok(None) => peers(clock, uri)
  }

  /** `_fetch_hint_uri`; any failure is `None`. */
  method FetchHint(w: World, peers: Peers, clock: nat, uri: string) returns (data: Option<seq<Byte>>, now: nat)
    requires IsHttpUri(uri)
    ensures data == HintBytes(w, peers, clock, uri)
    ensures now >= clock
  {
    now := clock;
    var local := LocalLdp(w, uri);
    if local.Err? {
      return None, now;
    }
    if local.value.Some? {
      return Some(local.value.value.0), now;
    }
    data := peers(now, uri);
    now := now + 1;
  }

  /** The outcome of reading a hashlink: a hint that answers decides, and only without one the digest is read as a bare
      id. */
  ghost predicate HashlinkRead(sha: Sha, w: World, peers: Peers, clock: nat, id: string, r: Result<seq<Byte>>) {
    match FromHl(Strip(id))
    case Err(_) => r.Err?
    case Ok((ni, uris)) =>
      if |uris| == 1 && IsHttpUri(uris[0]) && HintBytes(w, peers, clock, uris[0]).Some?
      then FromNi(ni).Ok? && GivesIf(sha, FromNi(ni).value, HintBytes(w, peers, clock, uris[0]).value, r)
      else exists later :: later >= clock && DigestRead(sha, w, peers, later, ni, r)
  }

  lemma OneHint(hl: string)
    requires FromHl(hl).Ok?
    ensures |FromHl(hl).value.1| <= 1
  {
  }

  /** `cat_bytes`: whatever disk, locators and peers answer, what is returned is what the id commits to. */
  method CatBytes(sha: Sha, w: World, peers: Peers, clock: nat, id: string, want: Option<string>)
    returns (r: Result<seq<Byte>>, now: nat)
    requires Listed(w)
    ensures r.Ok? ==> Verified(sha, id, r.value)
    ensures r.Ok? && want.None? && Committing(id) ==> FixedDigest(id) == Ok(sha(r.value))
    ensures r.Ok? && !IsHl(id) && IsHttpUri(id) ==> ExpectDigest(w, id, want).Ok?
    ensures r.Ok? && !IsHl(id) && IsHttpUri(id) && ExpectDigest(w, id, want).value.Some? ==>
      ExpectDigest(w, id, want).value.value == sha(r.value)
    ensures !IsHl(id) && !IsHttpUri(id) ==> DigestRead(sha, w, peers, clock, id, r)
    ensures !IsHl(id) && IsHttpUri(id) ==>
      if ReadUrl(sha, w, peers, clock, id, want).Ok? then r == ReadUrl(sha, w, peers, clock, id, want) else r.Err?
    ensures IsHl(id) ==> HashlinkRead(sha, w, peers, clock, id, r)
    ensures now >= clock
  {
    now := clock;
    if FromNi(id).Ok? {
      DigestIsNoUrl(id);
    }
    if IsHl(id) {
      var parsed := FromHl(Strip(id));
      if parsed.Err? {
        return Err(parsed.message), now;
      }
      var (ni, uris) := parsed.value;
      FromHlNames(Strip(id));
      FromNiNamed(ni);
      var digest := FromNi(ni).value;
      OneHint(Strip(id));
      for i := 0 to |uris|
        invariant now >= clock && (i == 0 ==> now == clock)
        invariant i > 0 ==> !(IsHttpUri(uris[0]) && HintBytes(w, peers, clock, uris[0]).Some?)
      {
        if IsHttpUri(uris[i]) {
          var data;
          data, now := FetchHint(w, peers, now, uris[i]);
          if data.Some? {
            if sha(data.value) != digest {
              return Err("hl: sha256 mismatch"), now;
            }
            return Ok(data.value), now;
          }
        }
      }
      r, now := CatDigest(sha, w, peers, now, ni);
      return;
    }
    if IsHttpUri(id) {
      r, now := CatHttp(sha, w, peers, now, id, want);
      if r.Ok? {
        ReadUrlChecked(sha, w, peers, clock, id, want);
      }
      return;
    }
    if IsNiOrDigest(id) {
      r, now := CatDigest(sha, w, peers, now, id);
      return;
    }
    return Err("Legacy CID is unsupported"), now;
  }

  // --- trees -----------------------------------------------------------------------------------------

  /** The node's state at each moment: anything may be put, lost or corrupted between two reads. */
  type Timeline = nat -> World

  ghost predicate AlwaysListed(worlds: Timeline) {
    forall t :: Listed(worlds(t))
  }

  /** The written file at `path` is what some manifest entry for that path commits to. */
  ghost predicate FromEntry(sha: Sha, ids: Entries, path: string, data: seq<Byte>) {
    exists rel :: rel in ids && CleanPath(rel) == path && Verified(sha, ids[rel], data)
  }

  predicate SafeEntry(rel: string) {
    !UnsafePath(CleanPath(rel))
  }

  ghost predicate Materialized(sha: Sha, codec: ManifestCodec, id: string, raw: seq<Byte>, written: FileMap) {
    && Verified(sha, id, raw) && codec.decode(raw).Some?
    && var ids := codec.decode(raw).value;
       && (forall rel :: rel in ids ==> SafeEntry(rel) && CleanPath(rel) in written)
       && (forall path :: path in written ==> FromEntry(sha, ids, path, written[path]))
  }

  /** Local disk holds these bytes at every moment from now on. */
  ghost predicate StaysLocal(sha: Sha, worlds: Timeline, clock: nat, data: seq<Byte>) {
    forall t :: t >= clock ==> worlds(t).Some? && Holds(sha, worlds(t).value.blobs, data)
  }

  ghost predicate IdStaysLocal(sha: Sha, worlds: Timeline, clock: nat, id: string) {
    exists data :: FromNi(id) == Ok(sha(data)) && StaysLocal(sha, worlds, clock, data)
  }

  ghost predicate EntriesStayLocal(sha: Sha, worlds: Timeline, clock: nat, ids: Entries) {
    forall rel :: rel in ids ==> SafeEntry(rel) && IdStaysLocal(sha, worlds, clock, ids[rel])
  }

  /** The id names a manifest, and it and its files stay in the local store. */
  ghost predicate TreeStaysLocal(sha: Sha, worlds: Timeline, clock: nat, codec: ManifestCodec, id: string,
                                 data: seq<Byte>) {
    && FromNi(id) == Ok(sha(data)) && StaysLocal(sha, worlds, clock, data)
    && codec.decode(data).Some? && EntriesStayLocal(sha, worlds, clock, codec.decode(data).value)
  }

  /** One read at the present moment. */
  method Fetch(sha: Sha, worlds: Timeline, peers: Peers, clock: nat, id: string)
    returns (r: Result<seq<Byte>>, now: nat)
    requires AlwaysListed(worlds)
    ensures r.Ok? ==> Verified(sha, id, r.value)
    ensures forall data :: FromNi(id) == Ok(sha(data)) && StaysLocal(sha, worlds, clock, data) ==> r == Ok(data)
    ensures IdStaysLocal(sha, worlds, clock, id) ==> r.Ok?
    ensures now >= clock
  {
    assert Listed(worlds(clock));
    r, now := CatBytes(sha, worlds(clock), peers, clock, id, None);
    forall data | FromNi(id) == Ok(sha(data)) && StaysLocal(sha, worlds, clock, data) ensures r == Ok(data) {
      DigestIsNoUrl(id);
      LocalRead(sha, worlds(clock), peers, clock, id, data, r);
    }
  }

  lemma LocalRead(sha: Sha, w: World, peers: Peers, clock: nat, id: string, data: seq<Byte>, r: Result<seq<Byte>>)
    requires FromNi(id) == Ok(sha(data)) && w.Some? && Holds(sha, w.value.blobs, data)
    requires DigestRead(sha, w, peers, clock, id, r)
    ensures r == Ok(data)
  {
  }

  /** `materialize_tree` through `cat_bytes`. It fails, or writes verified files only; it does not fail when
      the manifest and its files stay in the local store. */
  method MaterializeTree(sha: Sha, worlds: Timeline, peers: Peers, clock: nat, codec: ManifestCodec,
                         listing: Enumeration, id: string)
    returns (r: Result<FileMap>, ghost raw: seq<Byte>)
    requires AlwaysListed(worlds) && Enumerates(listing)
    ensures r.Ok? ==> Materialized(sha, codec, id, raw, r.value)
    ensures (exists data :: TreeStaysLocal(sha, worlds, clock, codec, id, data)) ==> r.Ok?
  {
    raw := [];
    var first, now := Fetch(sha, worlds, peers, clock, id);
    if first.Err? {
      return Err(first.message), raw;
    }
    raw := first.value;
    var manifest := codec.decode(first.value);
    if manifest.None? {
      return Err("not a CasDirectoryManifest"), raw;
    }
    var ids := manifest.value;
    LaterStaysLocal(sha, worlds, clock, now, ids);
    r := WriteEntries(sha, worlds, peers, now, ids, listing(ids.Keys));
  }

  lemma LaterStaysLocal(sha: Sha, worlds: Timeline, clock: nat, now: nat, ids: Entries)
    requires now >= clock
    ensures EntriesStayLocal(sha, worlds, clock, ids) ==> EntriesStayLocal(sha, worlds, now, ids)
  {
    if EntriesStayLocal(sha, worlds, clock, ids) {
      forall rel | rel in ids ensures IdStaysLocal(sha, worlds, now, ids[rel]) {
        var data :| FromNi(ids[rel]) == Ok(sha(data)) && StaysLocal(sha, worlds, clock, data);
        assert StaysLocal(sha, worlds, now, data);
      }
    }
  }

  /** The entries done so far are written, and nothing else is. */
  ghost predicate Wrote(sha: Sha, ids: Entries, rels: seq<string>, written: FileMap) {
    && (forall rel :: rel in rels ==> SafeEntry(rel) && CleanPath(rel) in written)
    && (forall path :: path in written ==> FromEntry(sha, ids, path, written[path]))
  }

  lemma WroteMore(sha: Sha, ids: Entries, rels: seq<string>, written: FileMap, rel: string, data: seq<Byte>)
    requires Wrote(sha, ids, rels, written) && rel in ids && SafeEntry(rel) && Verified(sha, ids[rel], data)
    ensures Wrote(sha, ids, rels + [rel], written[CleanPath(rel) := data])
  {
    var path := CleanPath(rel);
    var now := written[path := data];
    assert FromEntry(sha, ids, path, data);
    forall r | r in rels + [rel] ensures SafeEntry(r) && CleanPath(r) in now {
      assert r in rels || r == rel;
    }
    forall p | p in now ensures FromEntry(sha, ids, p, now[p]) {
      if p != path {
        assert p in written;
      }
    }
  }

  lemma WroteNext(sha: Sha, ids: Entries, rels: seq<string>, i: nat, written: FileMap, data: seq<Byte>)
    requires i < |rels| && rels[i] in ids && SafeEntry(rels[i]) && Verified(sha, ids[rels[i]], data)
    requires Wrote(sha, ids, rels[..i], written)
    ensures Wrote(sha, ids, rels[..i + 1], written[CleanPath(rels[i]) := data])
  {
    WroteMore(sha, ids, rels[..i], written, rels[i], data);
    assert rels[..i + 1] == rels[..i] + [rels[i]];
  }

  /** The bytes of one entry, if its path is safe. */
  method ReadEntry(sha: Sha, worlds: Timeline, peers: Peers, ghost since: nat, clock: nat, ids: Entries, rel: string)
    returns (r: Result<seq<Byte>>, now: nat)
    requires AlwaysListed(worlds) && rel in ids && clock >= since
    ensures r.Ok? ==> SafeEntry(rel) && Verified(sha, ids[rel], r.value)
    ensures EntriesStayLocal(sha, worlds, since, ids) ==> r.Ok?
    ensures now >= clock
  {
    LaterStaysLocal(sha, worlds, since, clock, ids);
    if !SafeEntry(rel) {
      return Err("unsafe manifest path"), clock;
    }
    r, now := Fetch(sha, worlds, peers, clock, ids[rel]);
  }

  /** The loop over the manifest entries. */
  method WriteEntries(sha: Sha, worlds: Timeline, peers: Peers, clock: nat, ids: Entries, rels: seq<string>)
    returns (r: Result<FileMap>)
    requires AlwaysListed(worlds) && forall rel :: rel in rels ==> rel in ids
    ensures r.Ok? ==> Wrote(sha, ids, rels, r.value)
    ensures EntriesStayLocal(sha, worlds, clock, ids) ==> r.Ok?
  {
    var now := clock;
    var written: FileMap := map[];
    for i := 0 to |rels|
      invariant now >= clock
      invariant Wrote(sha, ids, rels[..i], written)
    {
      var rel := rels[i];
      assert rel in rels;
      var data, later := ReadEntry(sha, worlds, peers, clock, now, ids, rel);
      if data.Err? {
        return Err(data.message);
      }
      WroteNext(sha, ids, rels, i, written, data.value);
      now := later;
      written := written[CleanPath(rel) := data.value];
    }
    assert rels[..|rels|] == rels;
    return Ok(written);
  }

  // --- end to end ------------------------------------------------------------------------------------

  /** No other bytes have this digest. */
  ghost predicate NoCollision(sha: Sha, data: seq<Byte>) {
    forall other :: sha(other) == sha(data) ==> other == data
  }

  lemma VerifiedBytes(sha: Sha, data: seq<Byte>, got: seq<Byte>)
    requires IsSha(sha) && NoCollision(sha, data) && Verified(sha, NiText(sha, data), got)
    ensures got == data
  {
    NiTextNames(sha, data);
    DigestIsNoUrl(NiText(sha, data));
  }

  /** Files whose paths a manifest keeps as they are. */
  ghost predicate CleanFiles(files: FileMap) {
    forall rel :: rel in files ==> CleanPath(rel) == rel
  }

  /** One written file. */
  lemma WrittenIsOriginal(sha: Sha, files: FileMap, path: string, data: seq<Byte>)
    requires IsSha(sha) && CleanFiles(files) && (forall rel :: rel in files ==> NoCollision(sha, files[rel]))
    requires FromEntry(sha, IdMap(sha, files), path, data)
    ensures path in files && data == files[path]
  {
    var ids := IdMap(sha, files);
    var rel :| rel in ids && CleanPath(rel) == path && Verified(sha, ids[rel], data);
    VerifiedBytes(sha, files[rel], data);
  }

  /** What is materialized from the id of a set of files is those files, byte for byte, whatever the disk, the
      locators and the peers did. */
  lemma MaterializedIsOriginal(sha: Sha, codec: ManifestCodec, files: FileMap, raw: seq<Byte>, written: FileMap)
    requires IsSha(sha) && Inverse(codec) && CleanFiles(files)
    requires NoCollision(sha, codec.encode(IdMap(sha, files)))
    requires forall rel :: rel in files ==> NoCollision(sha, files[rel])
    requires Materialized(sha, codec, TreeId(sha, codec, files), raw, written)
    ensures written == files
  {
    ManifestIsOriginal(sha, codec, IdMap(sha, files), raw, written);
    EntriesAreFiles(sha, files, written);
  }

  /** What is written from the entries of some files is those files. */
  lemma EntriesAreFiles(sha: Sha, files: FileMap, written: FileMap)
    requires IsSha(sha) && CleanFiles(files) && forall rel :: rel in files ==> NoCollision(sha, files[rel])
    requires forall path :: path in written ==> FromEntry(sha, IdMap(sha, files), path, written[path])
    requires forall rel :: rel in IdMap(sha, files) ==> CleanPath(rel) in written
    ensures written == files
  {
    forall path | path in written ensures path in files && written[path] == files[path] {
      WrittenIsOriginal(sha, files, path, written[path]);
    }
    AllWritten(sha, IdMap(sha, files), files, written);
  }

  lemma ManifestIsOriginal(sha: Sha, codec: ManifestCodec, ids: Entries, raw: seq<Byte>, written: FileMap)
    requires IsSha(sha) && Inverse(codec) && NoCollision(sha, codec.encode(ids))
    requires Materialized(sha, codec, NiText(sha, codec.encode(ids)), raw, written)
    ensures forall path :: path in written ==> FromEntry(sha, ids, path, written[path])
    ensures forall rel :: rel in ids ==> CleanPath(rel) in written
  {
    VerifiedBytes(sha, codec.encode(ids), raw);
    assert codec.decode(raw) == Some(ids);
  }

  lemma AllWritten(sha: Sha, ids: Entries, files: FileMap, written: FileMap)
    requires CleanFiles(files) && ids.Keys == files.Keys && forall rel :: rel in ids ==> CleanPath(rel) in written
    ensures files.Keys <= written.Keys
  {
  }

  /** End-to-end integrity of trees: whatever is materialized from the id of a stored tree, at any later time and
      from any sources, is exactly the tree's kept files, if and only if none of those has a backslash in its path. */
  lemma TreeIntegrity(sha: Sha, codec: ManifestCodec, root: seq<Child>, ignore: Ignore, raw: seq<Byte>,
                      written: FileMap)
    requires IsSha(sha) && Inverse(codec) && WellNamed(root)
    requires NoCollision(sha, codec.encode(IdMap(sha, KeptFiles(root, ignore))))
    requires forall rel :: rel in KeptFiles(root, ignore) ==> NoCollision(sha, KeptFiles(root, ignore)[rel])
    requires var built := Build(IdsOf(sha, Walk([Frame([], root)], ignore)));
      built.Ok? && Materialized(sha, codec, NiText(sha, codec.encode(built.value)), raw, written)
    ensures written == KeptFiles(root, ignore) <==> KeptClean(root, ignore)
  {
    if KeptClean(root, ignore) {
      ManifestIdIsOfKeptFiles(sha, codec, root, ignore);
      KeptFilesClean(root, ignore);
      MaterializedIsOriginal(sha, codec, KeptFiles(root, ignore), raw, written);
    } else {
      var p, b :| DirWalk.Kept(root, [], p, b, ignore) && '\\' in Join(p);
      KeptIsThere(root, ignore, p, b);
      var built := Build(IdsOf(sha, Walk([Frame([], root)], ignore)));
      BackslashIsLost(sha, codec, NiText(sha, codec.encode(built.value)), raw, written, KeptFiles(root, ignore),
                      Join(p));
    }
  }

  lemma KeptIsThere(root: seq<Child>, ignore: Ignore, p: Path, b: seq<Byte>)
    requires WellNamed(root) && DirWalk.Kept(root, [], p, b, ignore)
    ensures Join(p) in KeptFiles(root, ignore)
  {
    var files := Walk([Frame([], root)], ignore);
    WalkIsFilter(root, ignore, p, b);
    var i :| 0 <= i < |files| && files[i] == (p, b);
    MapOfKeys(files, i);
  }

  lemma KeptFilesClean(root: seq<Child>, ignore: Ignore)
    requires WellNamed(root) && KeptClean(root, ignore)
    ensures forall rel :: rel in KeptFiles(root, ignore) ==> CleanPath(rel) == rel && SafeEntry(rel)
  {
    forall rel | rel in KeptFiles(root, ignore) ensures CleanPath(rel) == rel && SafeEntry(rel) {
      KeptFilesAre(root, ignore, rel, KeptFiles(root, ignore)[rel]);
      var p :| rel == Join(p) && DirWalk.Kept(root, [], p, KeptFiles(root, ignore)[rel], ignore);
      KeptIsClean(root, ignore, p, KeptFiles(root, ignore)[rel]);
      CleanPathIsFixed(p);
    }
  }

  /** The clean-path condition is needed: a path with a backslash is written elsewhere, so a listing that holds
      one is never materialized as it was. */
  lemma BackslashIsLost(sha: Sha, codec: ManifestCodec, id: string, raw: seq<Byte>, written: FileMap, files: FileMap,
                        rel: string)
    requires Materialized(sha, codec, id, raw, written) && rel in files && '\\' in rel
    ensures written != files
  {
    if rel in written {
      assert FromEntry(sha, codec.decode(raw).value, rel, written[rel]);
      var r :| r in codec.decode(raw).value && CleanPath(r) == rel
        && Verified(sha, codec.decode(raw).value[r], written[rel]);
      NoBackslash(r);
    }
  }

  lemma NoBackslash(rel: string)
    ensures '\\' !in CleanPath(rel)
  {
    LStripKeepsOut(Replace(rel, '\\', '/'), '\\');
  }

  lemma {:induction false} LStripKeepsOut(s: string, c: char)
    requires c !in s
    ensures c !in LStripSlash(s)
  {
    if s != [] && s[0] == '/' {
      LStripKeepsOut(s[1..], c);
    }
  }

  /** A stored tree can be read back: as long as the node only puts more, its manifest and files stay local. */
  lemma StoredTreeStaysLocal(sha: Sha, codec: ManifestCodec, root: seq<Child>, ignore: Ignore, blobs: Blobs,
                             worlds: Timeline, clock: nat)
    requires IsSha(sha) && Inverse(codec) && WellNamed(root) && KeptClean(root, ignore)
    requires HoldsAll(sha, blobs, Walk([Frame([], root)], ignore))
    requires Holds(sha, blobs, codec.encode(IdMap(sha, KeptFiles(root, ignore))))
    requires forall t :: t >= clock ==> worlds(t).Some? && Extends(worlds(t).value.blobs, blobs)
    ensures TreeStaysLocal(sha, worlds, clock, codec, TreeId(sha, codec, KeptFiles(root, ignore)),
                           codec.encode(IdMap(sha, KeptFiles(root, ignore))))
  {
    var kept := KeptFiles(root, ignore);
    var ids := IdMap(sha, kept);
    NiTextNames(sha, codec.encode(ids));
    assert StaysLocal(sha, worlds, clock, codec.encode(ids));
    KeptFilesClean(root, ignore);
    var files := Walk([Frame([], root)], ignore);
    WalkIsClean(root, ignore);
    forall rel | rel in ids ensures IdStaysLocal(sha, worlds, clock, ids[rel]) {
      HeldFile(sha, files, blobs, rel);
      NiTextNames(sha, kept[rel]);
      assert StaysLocal(sha, worlds, clock, kept[rel]);
    }
  }

  lemma HeldFile(sha: Sha, files: Listing, blobs: Blobs, rel: string)
    requires CleanListing(files) && HoldsAll(sha, blobs, files) && rel in MapOf(files)
    ensures Holds(sha, blobs, MapOf(files)[rel])
  {
    MapOfHas(files, rel);
    var i :| 0 <= i < |files| && Join(files[i].0) == rel;
    assert Holds(sha, blobs, files[i].1);
  }

  // --- `get` -----------------------------------------------------------------------------------------

  datatype Content = Tree(files: FileMap) | Blob(bytes: seq<Byte>)

  /** The id `get` materializes a manifest from. */
  function ManifestId(w: World, id: string, want: Option<string>): Result<string>
    requires w.Some? ==> forall k :: k in w.value.order ==> k in w.value.index
  {
    var first := if want.Some? && want.value != [] then want.value else id;
    var second :- if IsHl(id) then (var (ni, _) :- FromHl(Strip(id)); Ok(ni)) else Ok(first);
    if IsHttpUri(id) && w.Some? then
      var found :- Index.Find(w.value.index, w.value.order, id);
      Ok(if found.Some? then found.value else second)
    else Ok(second)
  }

  /** A hashlink's own id; for a URL what the index lists it for; else the expected digest if one was given, or the id.
      */
  lemma ManifestIdIs(w: World, id: string, want: Option<string>)
    requires Listed(w)
    ensures IsHl(id) && !IsHttpUri(id) && FromHl(Strip(id)).Ok? ==>
      ManifestId(w, id, want) == Ok(FromHl(Strip(id)).value.0)
    ensures !IsHl(id) && (!IsHttpUri(id) || w.None? || Index.Find(w.value.index, w.value.order, id) == Ok(None)) ==>
      ManifestId(w, id, want) == Ok(if want.Some? && want.value != [] then want.value else id)
    ensures !IsHl(id) && IsHttpUri(id) && w.Some? && Index.Find(w.value.index, w.value.order, id).Ok? ==>
      var found := Index.Find(w.value.index, w.value.order, id).value;
      found.Some? ==> ManifestId(w, id, want) == Ok(found.value)
  {
  }

  /** `id` is what some moment from `clock` on makes the manifest id of this call. */
  ghost predicate ChosenAt(worlds: Timeline, clock: nat, id: string, want: Option<string>, from: string)
    requires AlwaysListed(worlds)
  {
    exists t :: t >= clock && Listed(worlds(t)) && ManifestId(worlds(t), id, want) == Ok(from)
  }

  /** The files are the tree of such a manifest id. */
  ghost predicate ComesFrom(sha: Sha, worlds: Timeline, clock: nat, codec: ManifestCodec, id: string,
                            want: Option<string>, files: FileMap)
    requires AlwaysListed(worlds)
  {
    exists from, raw :: ChosenAt(worlds, clock, id, want, from) && Materialized(sha, codec, from, raw, files)
  }

  /** The outcome of a read at one moment, by the kind of id. */
  ghost predicate ReadOutcome(sha: Sha, w: World, peers: Peers, clock: nat, id: string, want: Option<string>,
                              r: Result<seq<Byte>>)
    requires Listed(w)
  {
    if IsHl(id) then HashlinkRead(sha, w, peers, clock, id, r)
    else if IsHttpUri(id) then
      var read := ReadUrl(sha, w, peers, clock, id, want);
      if read.Ok? then r == read else r.Err?
    else DigestRead(sha, w, peers, clock, id, r)
  }

  /** The tree of the manifest id the call settles on. */
  method RetrieveTree(sha: Sha, worlds: Timeline, peers: Peers, clock: nat, codec: ManifestCodec,
                      listing: Enumeration, id: string, want: Option<string>)
    returns (r: Result<FileMap>, ghost raw: seq<Byte>, ghost from: string)
    requires AlwaysListed(worlds) && Enumerates(listing)
    ensures r.Ok? ==> ManifestId(worlds(clock), id, want) == Ok(from) && Materialized(sha, codec, from, raw, r.value)
    ensures (exists chosen, data :: ManifestId(worlds(clock), id, want) == Ok(chosen)
               && TreeStaysLocal(sha, worlds, clock, codec, chosen, data)) ==> r.Ok?
  {
    raw, from := [], [];
    assert Listed(worlds(clock));
    var manifestId := ManifestId(worlds(clock), id, want);
    if manifestId.Err? {
      return Err(manifestId.message), raw, from;
    }
    from := manifestId.value;
    r, raw := MaterializeTree(sha, worlds, peers, clock, codec, listing, manifestId.value);
  }

  /** `AddressStore.get`. What is written is the blob the id commits to, or the tree of the manifest id the call
      settles on: the `ni:` of a hashlink, the id the index has for a URL, the expected digest, or the id itself. It
      fails when the read does, and only then where the bytes are no manifest or the tree stays local. */
  method Retrieve(sha: Sha, worlds: Timeline, peers: Peers, clock: nat, codec: ManifestCodec,
                  listing: Enumeration, id: string, want: Option<string>)
    returns (r: Result<Content>, ghost read: Result<seq<Byte>>, ghost raw: seq<Byte>, ghost from: string)
    requires AlwaysListed(worlds) && Enumerates(listing)
    ensures Listed(worlds(clock)) && ReadOutcome(sha, worlds(clock), peers, clock, id, want, read)
    ensures read.Err? ==> r.Err?
    ensures read.Ok? ==> Verified(sha, id, read.value)
    ensures read.Ok? && codec.decode(read.value).None? ==> r == Ok(Blob(read.value))
    ensures read.Ok? && codec.decode(read.value).Some? && r.Ok? ==>
      r.value.Tree? && ChosenAt(worlds, clock, id, want, from) && Materialized(sha, codec, from, raw, r.value.files)
    ensures read.Ok? && codec.decode(read.value).Some? && r.Err? ==> !AllStayLocal(sha, worlds, clock, codec, id, want)
    ensures r.Ok? && r.value.Blob? ==>
      ReadOutcome(sha, worlds(clock), peers, clock, id, want, Ok(r.value.bytes)) && codec.decode(r.value.bytes).None?
    ensures r.Ok? && r.value.Tree? ==> ComesFrom(sha, worlds, clock, codec, id, want, r.value.files)
    ensures r.Ok? && r.value.Tree? && want.None? && !IsHttpUri(id) ==>
      from == if IsHl(id) then FromHl(Strip(id)).value.0 else id
  {
    raw, from, read := [], [], Err("");
    assert Listed(worlds(clock));
    if !(IsHttpUri(id) || IsNiOrDigest(id) || IsHl(id)) {
      FromNiNamed(id);
      return Err("Legacy CID is unsupported"), read, raw, from;
    }
    var data, now := CatBytes(sha, worlds(clock), peers, clock, id, want);
    read := data;
    if data.Err? {
      return Err(data.message), read, raw, from;
    }
    if codec.decode(data.value).None? {
      return Ok(Blob(data.value)), read, raw, from;
    }
    assert Listed(worlds(now));
    var files;
    files, raw, from := RetrieveTree(sha, worlds, peers, now, codec, listing, id, want);
    if files.Err? {
      StaysLater(sha, worlds, clock, now, codec, id, want);
      return Err(files.message), read, raw, from;
    }
    assert ChosenAt(worlds, clock, id, want, from);
    return Ok(Tree(files.value)), read, raw, from;
  }

  /** Whatever manifest the call may settle on from now on, it and its files stay in the local store. */
  ghost predicate AllStayLocal(sha: Sha, worlds: Timeline, clock: nat, codec: ManifestCodec, id: string,
                               want: Option<string>)
    requires AlwaysListed(worlds)
  {
    forall t: nat :: t >= clock && Listed(worlds(t)) ==>
      ManifestId(worlds(t), id, want).Ok?
      && exists data :: TreeStaysLocal(sha, worlds, t, codec, ManifestId(worlds(t), id, want).value, data)
  }

  lemma StaysLater(sha: Sha, worlds: Timeline, clock: nat, now: nat, codec: ManifestCodec, id: string,
                   want: Option<string>)
    requires AlwaysListed(worlds) && now >= clock && Listed(worlds(now))
    ensures AllStayLocal(sha, worlds, clock, codec, id, want) ==>
      exists chosen, data :: ManifestId(worlds(now), id, want) == Ok(chosen)
        && TreeStaysLocal(sha, worlds, now, codec, chosen, data)
  {
  }

  // --- store, then materialize -----------------------------------------------------------------------

  /** From now on the node's store only grows. */
  ghost predicate OnlyGrows(worlds: Timeline, clock: nat, blobs: Blobs) {
    forall t :: t >= clock ==> worlds(t).Some? && Extends(worlds(t).value.blobs, blobs)
  }

  /** In a store where every blob lies under its digest, nothing is in the way of a clean tree. */
  lemma NothingInTheWay(sha: Sha, blobs: Blobs, codec: ManifestCodec, root: seq<Child>, ignore: Ignore)
    requires IsSha(sha) && WellNamed(root) && KeptClean(root, ignore) && Addressed(sha, blobs)
    requires NoCollision(sha, codec.encode(IdMap(sha, KeptFiles(root, ignore))))
    requires forall rel :: rel in KeptFiles(root, ignore) ==> NoCollision(sha, KeptFiles(root, ignore)[rel])
    ensures var files := Walk([Frame([], root)], ignore);
      var built := Build(IdsOf(sha, files));
      && built.Ok? && !Clash(sha, blobs, codec.encode(built.value))
      && forall i :: 0 <= i < |files| ==> !Clash(sha, blobs, files[i].1)
  {
    var files := Walk([Frame([], root)], ignore);
    WalkIsClean(root, ignore);
    BuildOfClean(sha, files);
    forall i | 0 <= i < |files| ensures !Clash(sha, blobs, files[i].1) {
      FileIsKept(root, ignore, files[i].0, files[i].1);
    }
  }

  lemma FileIsKept(root: seq<Child>, ignore: Ignore, p: Path, bytes: seq<Byte>)
    requires WellNamed(root) && KeptClean(root, ignore) && (p, bytes) in Walk([Frame([], root)], ignore)
    ensures Join(p) in KeptFiles(root, ignore) && KeptFiles(root, ignore)[Join(p)] == bytes
  {
    WalkIsFilter(root, ignore, p, bytes);
    KeptFilesAre(root, ignore, Join(p), bytes);
  }

  /** `put_tree`, and at any later time `materialize_tree` of the id it returned: it fails, or gives back exactly the
      kept files, whatever disk, locators and peers do in between, if and only if none of those has a backslash in its
      path. Then it does not fail on a store that only grows, if every blob of the store lay under its digest. */
  method StoreThenMaterialize(store: CasHttpStore, root: seq<Child>, ignore: Ignore, codec: ManifestCodec,
                              worlds: Timeline, peers: Peers, clock: nat, listing: Enumeration)
    returns (r: Result<FileMap>, stored: bool)
    requires IsSha(store.sha) && Inverse(codec) && WellNamed(root)
    requires NoCollision(store.sha, codec.encode(IdMap(store.sha, KeptFiles(root, ignore))))
    requires forall rel :: rel in KeptFiles(root, ignore) ==> NoCollision(store.sha, KeptFiles(root, ignore)[rel])
    requires AlwaysListed(worlds) && Enumerates(listing)
    modifies store
    ensures r.Ok? ==> stored && (r.value == KeptFiles(root, ignore) <==> KeptClean(root, ignore))
    ensures stored && KeptClean(root, ignore) && OnlyGrows(worlds, clock, store.blobs) ==> r.Ok?
    ensures Extends(store.blobs, old(store.blobs))
    ensures KeptClean(root, ignore) && Addressed(store.sha, old(store.blobs)) ==> stored
  {
    var id := PutTree(store, root, ignore, codec);
    stored := id.Ok?;
    if id.Err? {
      if KeptClean(root, ignore) && Addressed(store.sha, store.blobs) {
        NothingInTheWay(store.sha, store.blobs, codec, root, ignore);
      }
      return Err(id.message), stored;
    }
    if KeptClean(root, ignore) && OnlyGrows(worlds, clock, store.blobs) {
      WalkIsClean(root, ignore);
      BuildOfClean(store.sha, Walk([Frame([], root)], ignore));
      StoredTreeStaysLocal(store.sha, codec, root, ignore, store.blobs, worlds, clock);
    }
    ghost var raw;
    r, raw := MaterializeTree(store.sha, worlds, peers, clock, codec, listing, id.value);
    if r.Ok? {
      TreeIntegrity(store.sha, codec, root, ignore, raw, r.value);
    }
  }
}
