/** What references say, told apart from the reader and the writer: which URLs name which key, which fields a stem
    has, and what each field of a stem decides (cats/network/cas/content_ref.py). */
module UrlRefs {
  import opened Codec
  import opened ContentRef
  import opened Digest
  import opened Hashlink
  import opened Json
  import opened Text
  import opened Wrappers

  // --- URLs ------------------------------------------------------------------------------------------

  /** The stores with content paths. */
  const STORES: set<string> := {"cas", "invoices", "orders", "boms"}

  ghost predicate InStore(path: string, store: string, key: string) {
    path == "/ldp/" + store + "/" + key
  }

  /** A path names a key exactly when it is that key in one of the four stores. */
  lemma LdpKeyIff(path: string, key: string)
    ensures LdpKey(path) == Some(key) <==>
      IsPathKey(key) && exists store :: store in STORES && InStore(path, store, key)
  {
    if LdpKey(path) == Some(key) {
      KeyInStore(path, key);
    }
    if store :| store in STORES && InStore(path, store, key) && IsPathKey(key) {
      StoreHasKey(path, store, key);
    }
  }

  lemma KeyInStore(path: string, key: string)
    requires LdpKey(path) == Some(key)
    ensures IsPathKey(key) && exists store :: store in STORES && InStore(path, store, key)
  {
    if "/ldp/cas/" <= path && IsPathKey(path[9..]) {
      InThatStore(path, "cas", "/ldp/cas/", key);
    } else if "/ldp/invoices/" <= path && IsPathKey(path[14..]) {
      InThatStore(path, "invoices", "/ldp/invoices/", key);
    } else if "/ldp/orders/" <= path && IsPathKey(path[12..]) {
      InThatStore(path, "orders", "/ldp/orders/", key);
    } else {
      InThatStore(path, "boms", "/ldp/boms/", key);
    }
  }

  lemma InThatStore(path: string, store: string, front: string, key: string)
    requires store in STORES && front == "/ldp/" + store + "/" && front <= path && path[|front|..] == key
    ensures exists store :: store in STORES && InStore(path, store, key)
  {
    assert path == front + key;
    assert InStore(path, store, key);
  }

  lemma StoreHasKey(path: string, store: string, key: string)
    requires store in STORES && InStore(path, store, key) && IsPathKey(key)
    ensures LdpKey(path) == Some(key)
  {
    if store == "cas" {
      Front("/ldp/cas/", "/ldp/" + store + "/", key);
    } else if store == "invoices" {
      Front("/ldp/invoices/", "/ldp/" + store + "/", key);
      assert path[5] == 'i';
    } else if store == "orders" {
      Front("/ldp/orders/", "/ldp/" + store + "/", key);
      assert path[5] == 'o';
    } else {
      Front("/ldp/boms/", "/ldp/" + store + "/", key);
      assert path[5] == 'b';
    }
  }

  lemma Front(front: string, again: string, key: string)
    requires front == again
    ensures front <= again + key && (again + key)[|front|..] == key
  {
  }

  /** What may follow the path of a URL: nothing, or a query or fragment. */
  ghost predicate Tail(tail: string) {
    tail == [] || tail[0] == '?' || tail[0] == '#'
  }

  /** The path of a URL ends where its query or fragment starts, whatever those hold. */
  lemma PathStops(host: string, path: string, tail: string)
    requires forall i :: 0 <= i < |host| ==> host[i] !in {'/', '?', '#'}
    requires path != [] && path[0] == '/' && Quiet(path) && Tail(tail)
    ensures PathAfterScheme(host + path + tail) == path
  {
    var drop := {'\t', '\r', '\n'};
    var h := HostKept(host, path);
    WithoutConcat(host + path, tail, drop);
    var t := Without(tail, drop);
    TailKept(tail, drop);
    SplitUrl(h, path, t);
    DropParamsNothing(path);
  }

  lemma TailKept(tail: string, drop: set<char>)
    requires Tail(tail) && '?' !in drop && '#' !in drop
    ensures Tail(Without(tail, drop))
  {
  }

  lemma SplitUrl(h: string, path: string, t: string)
    requires forall i :: 0 <= i < |h| ==> h[i] !in {'/', '?', '#'}
    requires path != [] && path[0] == '/' && Quiet(path) && Tail(t)
    ensures Until(h + path + t, {'/', '?', '#'}) == h && (h + path + t)[|h|..] == path + t
    ensures Until(Until(path + t, {'#'}), {'?'}) == path
  {
    assert h + path + t == h + (path + t);
    UntilStop(h, path + t, {'/', '?', '#'});
    Fragment(path, t);
  }

  lemma Fragment(path: string, t: string)
    requires Quiet(path) && Tail(t)
    ensures Until(Until(path + t, {'#'}), {'?'}) == path
  {
    if t == [] || t[0] == '#' {
      UntilStop(path, t, {'#'});
      UntilEnd(path, {'?'});
    } else {
      UntilConcat(path, t, {'#'});
      UntilStop(path, Until(t, {'#'}), {'?'});
    }
  }

  lemma {:induction false} UntilConcat(head: string, tail: string, stops: set<char>)
    requires forall i :: 0 <= i < |head| ==> head[i] !in stops
    ensures Until(head + tail, stops) == head + Until(tail, stops)
  {
    if head == [] {
      assert head + tail == tail;
    } else {
      assert (head + tail)[1..] == head[1..] + tail;
      UntilConcat(head[1..], tail, stops);
    }
  }

  /** A URL, in parts. The scheme is `http://` or `https://` in any case. */
  ghost predicate UrlParts(url: string, scheme: string, host: string, path: string, tail: string) {
    && url != [] && url == scheme + host + path + tail && !IsSpace(url[|url| - 1])
    && (Lower(scheme) == "http://" || Lower(scheme) == "https://")
    && (forall i :: 0 <= i < |host| ==> host[i] !in {'/', '?', '#'})
    && path != [] && path[0] == '/' && Quiet(path) && Tail(tail)
  }

  /** Both readers of paths, of references and of URLs to fetch, find the same one. */
  lemma PathIs(url: string, scheme: string, host: string, path: string, tail: string)
    requires UrlParts(url, scheme, host, path, tail)
    ensures IsHttpUri(url) && Strip(url) == url && UrlPath(url) == path && RawUrlPath(url) == path
  {
    var rest := host + path + tail;
    assert url == scheme + rest;
    LowerOfConcat(scheme, rest);
    SchemeStart(url);
    SchemeSize(scheme, rest);
    assert url[|scheme|..] == rest;
    PathStops(host, path, tail);
    RawOfTrimmed(url);
  }

  lemma SchemeSize(scheme: string, rest: string)
    requires Lower(scheme) == "http://" || Lower(scheme) == "https://"
    ensures SchemeLength(scheme + rest) == |scheme|
  {
    LowerOfConcat(scheme, rest);
    if Lower(scheme) == "https://" {
      assert Lower(scheme + rest)[4] == 's';
    }
  }

  /** A URL of a key in one of the four stores names that key, in canonical form when it is a digest in any case,
      whatever its scheme, host, query and fragment, and whatever the locator index holds. */
  lemma UrlNames(url: string, scheme: string, host: string, store: string, key: string, tail: string,
                 locators: Locators)
    requires store in STORES && IsPathKey(key)
    requires UrlParts(url, scheme, host, "/ldp/" + store + "/" + key, tail)
    ensures IsHex64(Lower(key)) ==>
      ContentIdFromUri(url, locators) == Ok(Some("ni:///sha-256;" + B64Encode(HexToBytes(Lower(key)))))
    ensures !IsHex64(Lower(key)) ==> ContentIdFromUri(url, locators) == Ok(Some(key))
  {
    PathIs(url, scheme, host, "/ldp/" + store + "/" + key, tail);
    StoreHasKey("/ldp/" + store + "/" + key, store, key);
    PathKeyTrimmed(key);
  }

  // --- fields ----------------------------------------------------------------------------------------

  /** The fields of a stem, however the stem is spelled. */
  lemma FieldsAre(stem: string)
    requires Plain(stem) && stem != "cid"
    ensures UriField(stem) == UriField(stem + "_uri") == UriField(stem + "_cid") == stem + "_uri"
    ensures CidField(stem) == CidField(stem + "_uri") == CidField(stem + "_cid") == stem + "_cid"
  {
    var u, c := stem + "_uri", stem + "_cid";
    assert u[|stem|..] == "_uri" && c[|stem|..] == "_cid" && u[..|stem|] == stem && c[..|stem|] == stem;
    assert "_uri"[1] != "_cid"[1];
    assert u[|u| - 3] == 'u' && c[|c| - 3] == 'c';
  }

  /** The stem `cid` has the fields `uri` and `cid_cid`. */
  lemma FieldsOfCid()
    ensures UriField("cid") == "uri" && CidField("cid") == "cid_cid"
  {
  }

  /** A given locator is the one written; without one, or with an empty one, an id that is no digest is written
      itself. */
  lemma WrittenIs(d: Dict, stem: string, id: string, base: string, uri: Option<string>)
    requires SetRef(d, stem, id, base, uri).Ok?
    ensures var (d', eid) := SetRef(d, stem, id, base, uri).value;
      && (uri.Some? && uri.value != [] ==> Get(d', UriField(stem)) == Some(Str(uri.value)))
      && (!IsNiOrDigest(id) ==> eid == Strip(id))
      && (!IsNiOrDigest(id) && (uri == None || uri == Some([])) ==> Get(d', UriField(stem)) == Some(Str(Strip(id))))
  {
    WrittenText(d, stem, RefText(RefTarget(id).value, base, uri).value);
    if !IsNiOrDigest(id) {
      StripTwice(id);
    }
  }

  lemma WrittenText(d: Dict, stem: string, text: string)
    ensures Get(Del(Set(d, UriField(stem), Str(text)), CidField(stem)), UriField(stem)) == Some(Str(text))
  {
    WrittenField(d, stem, Str(text));
  }

  /** Any other URL is what the locator index lists it under, if anything. */
  lemma IndexDecides(url: string, locators: Locators, id: string)
    requires IsHttpUri(url)
    requires forall store, key :: store in STORES && IsPathKey(key) ==> !InStore(UrlPath(url), store, key)
    ensures locators(Strip(url)) == None ==> ContentIdFromUri(url, locators) == Ok(None)
    ensures locators(Strip(url)).Some? ==>
      (ContentIdFromUri(url, locators) == Ok(Some(id)) <==> IdIs(locators(Strip(url)).value, id))
  {
    if LdpKey(UrlPath(url)).Some? {
      KeyInStore(UrlPath(url), LdpKey(UrlPath(url)).value);
    }
  }

  /** Nothing readable under a field: absent, no string, or blank. */
  ghost predicate Blank(d: Dict, field: string) {
    match Get(d, field)
    case Some(Str(s)) => Strip(s) == []
    case _ => true
  }

  ghost predicate HasText(d: Dict, field: string) {
    Has(d, field) && Get(d, field).value.Str?
  }

  /** A digest in any spelling as its canonical `ni:`, any other text as it is. */
  ghost predicate IdIs(text: string, id: string) {
    if IsNiOrDigest(text) then EqualityId(text) == Ok(id) else id == text
  }

  /** Without a locator the legacy field decides; without that the `content_id` of an object with no stem of its own;
      otherwise there is no reference. */
  lemma LegacyDecides(d: Dict, stem: string, locators: Locators, id: string)
    requires Blank(d, UriField(stem))
    ensures !Blank(d, CidField(stem)) ==>
      (RefId(d, stem, locators) == Ok(Some(id)) <==> IdIs(Strip(Get(d, CidField(stem)).value.s), id))
    ensures Blank(d, CidField(stem)) && stem in {"", "content"} && HasText(d, "content_id") ==>
      (RefId(d, stem, locators) == Ok(Some(id)) <==> IdIs(Strip(Get(d, "content_id").value.s), id))
    ensures Blank(d, CidField(stem)) && stem !in {"", "content"} ==> RefId(d, stem, locators) == Ok(None)
  {
  }

  /** A locator that is neither URL nor hashlink is the id itself, in canonical form when it is a digest. */
  lemma PlainLocatorDecides(d: Dict, stem: string, text: string, locators: Locators, id: string)
    requires Get(d, UriField(stem)) == Some(Str(text)) && Strip(text) != []
    requires !IsHl(text) && !IsHttpUri(text)
    ensures RefId(d, stem, locators) == Ok(Some(id)) <==> IdIs(Strip(text), id)
  {
    StripTrims(text);
  }

  /** A hashlink is the digest in it, or no reference; the other fields do not matter. */
  lemma HashlinkDecides(d: Dict, stem: string, text: string, locators: Locators)
    requires Get(d, UriField(stem)) == Some(Str(text)) && IsHl(text)
    ensures RefId(d, stem, locators) == Ok(if FromHl(text).Ok? then Some(FromHl(text).value.0) else None)
  {
    StripTrims(text);
  }

  /** A URL that names nothing leaves the decision to the legacy field. */
  lemma UnknownUrlDefers(d: Dict, stem: string, text: string, locators: Locators)
    requires Get(d, UriField(stem)) == Some(Str(text)) && IsHttpUri(text) && !IsHl(text)
    requires ContentIdFromUri(Strip(text), locators) == Ok(None)
    ensures RefId(d, stem, locators) == RefId(Del(d, UriField(stem)), stem, locators)
  {
    StripTrims(text);
    FieldNames(stem, stem);
    GetDel(d, UriField(stem), UriField(stem));
    GetDel(d, UriField(stem), CidField(stem));
    GetDel(d, UriField(stem), "content_id");
  }
}
