/** `*_uri` references inside documents: writer, reader and locator parsing
    (cats/network/cas/content_ref.py, `cas_ldp_uri` of cats/network/cas/store.py). */
module ContentRef {
  import opened Codec
  import opened Digest
  import opened Hashlink
  import opened Json
  import opened Text
  import opened Wrappers

  /** What the node-local locator index answers for a URI (`find_content_id_for_uri`). */
  type Locators = string -> Option<string>

  predicate IsHttpUri(value: string) {
    var lowered := Lower(Strip(value));
    "http://" <= lowered || "https://" <= lowered
  }

  function RStripSlash(s: string): string {
    if s != [] && s[|s| - 1] == '/' then RStripSlash(s[..|s| - 1]) else s
  }

  /** `s.rsplit('/', 1)[-1]`. */
  function AfterLastSlash(s: string): string {
    if s == [] || s[|s| - 1] == '/' then [] else AfterLastSlash(s[..|s| - 1]) + [s[|s| - 1]]
  }

  lemma {:induction false} LastSegment(front: string, key: string)
    requires '/' !in key
    ensures AfterLastSlash(front + ['/'] + key) == key
  {
    var s := front + ['/'] + key;
    if key == [] {
      assert s[|s| - 1] == '/';
    } else {
      var k := key[..|key| - 1];
      assert s[..|s| - 1] == front + ['/'] + k && s[|s| - 1] == key[|key| - 1];
      assert key[|key| - 1] in key;
      LastSegment(front, k);
    }
  }

  lemma {:induction false} SlashesStripped(s: string, slashes: string)
    requires s != [] && s[|s| - 1] != '/' && forall i :: 0 <= i < |slashes| ==> slashes[i] == '/'
    ensures RStripSlash(s + slashes) == s
  {
    if slashes == [] {
      assert s + slashes == s;
    } else {
      var t := s + slashes;
      assert t[..|t| - 1] == s + slashes[..|slashes| - 1];
      SlashesStripped(s, slashes[..|slashes| - 1]);
    }
  }

  const CAS_PATH: string := "/ldp/cas/"

  function CasLdpUri(hex: string, base: string): Result<string> {
    var digest :- ValidateDigestSegment(hex);
    Ok(RStripSlash(base) + CAS_PATH + digest)
  }

  // --- the part of `urlparse` that is used: the path of an absolute http(s) URI ----------------------

  /** Everything before the first of the given characters. */
  function Until(s: string, stops: set<char>): (r: string)
    ensures r <= s
    ensures forall i :: 0 <= i < |r| ==> r[i] !in stops
    ensures |r| < |s| ==> s[|r|] in stops
  {
    if s == [] || s[0] in stops then []
    else
      assert s == [s[0]] + s[1..];
      [s[0]] + Until(s[1..], stops)
  }

  function Without(s: string, drop: set<char>): string {
    if s == [] then [] else (if s[0] in drop then [] else [s[0]]) + Without(s[1..], drop)
  }

  /** The last path segment loses everything from its first `;`. */
  function DropParams(path: string): string {
    if path == [] then []
    else if '/' in path[1..] then [path[0]] + DropParams(path[1..])
    else Until(path, {';'})
  }

  /** The length of `http://` or `https://`. */
  function SchemeLength(s: string): nat {
    if "http://" <= Lower(s) then 7 else 8
  }

  /** The path of what follows the scheme: past the host, short of fragment, query and parameters. */
  function PathAfterScheme(rest: string): string {
    var r := Without(rest, {'\t', '\r', '\n'});
    var afterHost := r[|Until(r, {'/', '?', '#'})|..];
    DropParams(Until(Until(afterHost, {'#'}), {'?'}))
  }

  function UrlPath(uri: string): string
    requires IsHttpUri(uri)
  {
    PathAfterScheme(Strip(uri)[SchemeLength(Strip(uri))..])
  }

  /** `urlparse` drops leading control characters and spaces itself, but nothing at the end. */
  function LStripControls(s: string): string {
    if s != [] && s[0] <= ' ' then LStripControls(s[1..]) else s
  }

  /** The path of an http(s) URI that was not stripped first. Behind other white space no scheme is recognized. */
  function RawUrlPath(uri: string): string {
    var t := LStripControls(uri);
    if "http://" <= Lower(t) || "https://" <= Lower(t) then PathAfterScheme(t[SchemeLength(t)..])
    else DropParams(Until(Until(Without(t, {'\t', '\r', '\n'}), {'#'}), {'?'}))
  }

  /** On trimmed URIs stripping makes no difference. */
  lemma RawOfTrimmed(uri: string)
    requires IsHttpUri(uri) && Strip(uri) == uri
    ensures RawUrlPath(uri) == UrlPath(uri)
  {
    assert LowerChar(uri[0]) == Lower(uri)[0] == 'h';
  }

  predicate IsPathKeyChar(c: char) {
    IsAlnum(c) || c == '_' || c == '-'
  }

  predicate IsPathKey(s: string) {
    s != [] && forall i :: 0 <= i < |s| ==> IsPathKeyChar(s[i])
  }

  lemma PathKeyTrimmed(key: string)
    requires IsPathKey(key)
    ensures Strip(key) == key && forall i :: 0 <= i < |key| ==> key[i] != ':'
  {
    assert !IsPathKeyChar(':');
    assert !IsSpace(key[0]) && !IsSpace(key[|key| - 1]) && Trimmed(key);
  }

  /** The key of `/ldp/{cas,invoices,orders,boms}/<key>`. */
  function LdpKey(path: string): Option<string> {
    if CAS_PATH <= path && IsPathKey(path[9..]) then Some(path[9..])
    else if "/ldp/invoices/" <= path && IsPathKey(path[14..]) then Some(path[14..])
    else if "/ldp/orders/" <= path && IsPathKey(path[12..]) then Some(path[12..])
    else if "/ldp/boms/" <= path && IsPathKey(path[10..]) then Some(path[10..])
    else None
  }

  function Canonical(found: string): Result<string> {
    if IsNiOrDigest(found) then EqualityId(found) else Ok(found)
  }

  function ContentIdFromUri(uri: string, locators: Locators): Result<Option<string>> {
    if uri == [] || !IsHttpUri(uri) then Ok(None)
    else match LdpKey(UrlPath(uri))
      case Some(key) =>
        Ok(Some(match ToNi(key) case Ok(ni) => ni case Err(_) => key))
      case None =>
        match locators(Strip(uri))
        case Some(found) => var id :- Canonical(found); Ok(Some(id))
        case None => Ok(None)
  }

  /** The id an intake value stands for. Registering an `hl:` hint is `LocatorIndex.Put`. */
  function ResolveIntakeRef(value: string, locators: Locators): Result<Option<string>> {
    var raw := Strip(value);
    if raw == [] then Ok(None)
    else if IsHl(raw) then var (ni, _) :- FromHl(raw); Ok(Some(ni))
    else if IsNiOrDigest(raw) then var id :- EqualityId(raw); Ok(Some(id))
    else if IsHttpUri(raw) then ContentIdFromUri(raw, locators)
    else Ok(Some(raw))
  }

  lemma DigestIsNoUrl(id: string)
    requires IsNiOrDigest(id) || FromNi(id).Ok?
    ensures !IsHl(id) && !IsHttpUri(id)
  {
    var value := Strip(id);
    if IsHex64(Lower(value)) {
      assert IsHexChar(Lower(value)[0]) && IsHexChar(Lower(value)[1]);
    } else {
      assert value[0] == NI_PREFIX[0];
    }
  }

  // --- field names -----------------------------------------------------------------------------------

  function UriField(stem: string): string {
    if EndsWith(stem, "_cid") then DropSuffix(stem, "_cid") + "_uri"
    else if EndsWith(stem, "_uri") then stem
    else if stem == "cid" then "uri"
    else stem + "_uri"
  }

  function CidField(stem: string): string {
    if EndsWith(stem, "_cid") then stem
    else if EndsWith(stem, "_uri") then DropSuffix(stem, "_uri") + "_cid"
    else stem + "_cid"
  }

  predicate Plain(stem: string) {
    !EndsWith(stem, "_uri") && !EndsWith(stem, "_cid")
  }

  // --- writer and reader -----------------------------------------------------------------------------

  /** The id a reference stands for: canonical for digests, trimmed otherwise. */
  function RefTarget(id: string): Result<string> {
    if IsNiOrDigest(id) then EqualityId(id) else Ok(Strip(id))
  }

  /** What is written under the `_uri` name: the given locator, the CAS locator of a digest, or the id itself. */
  function RefText(eid: string, base: string, uri: Option<string>): Result<string> {
    var locator :-
      if uri.Some? then Ok(uri.value)
      else if eid != [] && IsNiOrDigest(eid) then var hex :- FromNi(eid); CasLdpUri(hex, base)
      else Ok([]);
    Ok(if locator != [] then locator else eid)
  }

  /** `set_ref`: the new document and the equality id. */
  function SetRef(d: Dict, stem: string, id: string, base: string, uri: Option<string>): Result<(Dict, string)> {
    var eid :- RefTarget(id);
    var text :- RefText(eid, base, uri);
    Ok((Del(Set(d, UriField(stem), Str(text)), CidField(stem)), eid))
  }

  function StrippedString(j: Option<Json>): Option<string> {
    if j.Some? && j.value.Str? && Strip(j.value.s) != [] then Some(Strip(j.value.s)) else None
  }

  function RefUri(d: Dict, stem: string): Option<string> {
    StrippedString(Get(d, UriField(stem)))
  }

  function LegacyId(cid: Option<Json>, bare: Option<Json>, stem: string): Result<Option<string>> {
    match StrippedString(cid)
    case Some(value) => var id :- Canonical(value); Ok(Some(id))
    case None =>
      if (stem == "" || stem == "content") && bare.Some? && bare.value.Str? then
        var id :- Canonical(Strip(bare.value.s)); Ok(Some(id))
      else Ok(None)
  }

  /** `ref_id` on the three fields it looks at: the locator first, else the legacy field. */
  function IdOfFields(uri: Option<Json>, cid: Option<Json>, bare: Option<Json>, stem: string, locators: Locators)
    : Result<Option<string>>
  {
    IdOfText(StrippedString(uri), cid, bare, stem, locators)
  }

  function IdOfText(text: Option<string>, cid: Option<Json>, bare: Option<Json>, stem: string, locators: Locators)
    : Result<Option<string>>
  {
    match text
    case None => LegacyId(cid, bare, stem)
    case Some(uri) =>
      if IsHl(uri) then
        match ResolveIntakeRef(uri, locators)
        case Ok(id) => Ok(id)
        case Err(_) => Ok(None)
      else if IsHttpUri(uri) then
        var found :- ContentIdFromUri(uri, locators);
        if found.Some? && found.value != [] then Ok(found) else LegacyId(cid, bare, stem)
      else
        var id :- Canonical(uri); Ok(Some(id))
  }

  function RefId(d: Dict, stem: string, locators: Locators): Result<Option<string>> {
    IdOfFields(Get(d, UriField(stem)), Get(d, CidField(stem)), Get(d, "content_id"), stem, locators)
  }

  // --- the round trip --------------------------------------------------------------------------------

  /** A base URL with a host and no path, query or fragment, up to trailing slashes. */
  predicate HostOnly(base: string) {
    var b := RStripSlash(base);
    && ("http://" <= Lower(b) || "https://" <= Lower(b))
    && |b| > SchemeLength(b)
    && forall i :: SchemeLength(b) <= i < |b| ==> b[i] != '/' && b[i] != '?' && b[i] != '#'
  }

  lemma {:induction false} WithoutConcat(a: string, b: string, drop: set<char>)
    ensures Without(a + b, drop) == Without(a, drop) + Without(b, drop)
  {
    if a == [] {
      assert a + b == b;
    } else {
      assert (a + b)[1..] == a[1..] + b;
      WithoutConcat(a[1..], b, drop);
    }
  }

  lemma {:induction false} WithoutNothing(s: string, drop: set<char>)
    requires forall i :: 0 <= i < |s| ==> s[i] !in drop
    ensures Without(s, drop) == s
  {
    if s != [] {
      WithoutNothing(s[1..], drop);
    }
  }

  lemma {:induction false} WithoutKeepsOut(s: string, drop: set<char>, stops: set<char>)
    requires forall i :: 0 <= i < |s| ==> s[i] !in stops
    ensures forall i :: 0 <= i < |Without(s, drop)| ==> Without(s, drop)[i] !in stops
  {
    if s != [] {
      WithoutKeepsOut(s[1..], drop, stops);
    }
  }

  lemma {:induction false} UntilStop(head: string, tail: string, stops: set<char>)
    requires forall i :: 0 <= i < |head| ==> head[i] !in stops
    requires tail != [] ==> tail[0] in stops
    ensures Until(head + tail, stops) == head
  {
    if head == [] {
      assert head + tail == tail;
    } else {
      assert (head + tail)[1..] == head[1..] + tail;
      UntilStop(head[1..], tail, stops);
    }
  }

  lemma UntilEnd(s: string, stops: set<char>)
    requires forall i :: 0 <= i < |s| ==> s[i] !in stops
    ensures Until(s, stops) == s
  {
    UntilStop(s, [], stops);
    assert s + [] == s;
  }

  lemma {:induction false} DropParamsNothing(path: string)
    requires forall i :: 0 <= i < |path| ==> path[i] != ';'
    ensures DropParams(path) == path
  {
    if path != [] && '/' in path[1..] {
      DropParamsNothing(path[1..]);
    } else if path != [] {
      UntilEnd(path, {';'});
    }
  }

  /** Characters with no meaning to the URL splitter. */
  ghost predicate Quiet(path: string) {
    forall i :: 0 <= i < |path| ==> path[i] == '/' || IsPathKeyChar(path[i])
  }

  lemma PathOfHostAndPath(host: string, path: string)
    requires forall i :: 0 <= i < |host| ==> host[i] !in {'/', '?', '#'}
    requires path != [] && path[0] == '/' && Quiet(path)
    ensures PathAfterScheme(host + path) == path
  {
    var h := HostKept(host, path);
    UntilStop(h, path, {'/', '?', '#'});
    assert (h + path)[|h|..] == path;
    UntilEnd(path, {'#'});
    UntilEnd(path, {'?'});
    DropParamsNothing(path);
  }

  /** Dropping control characters leaves the path alone, and the host free of separators. */
  lemma HostKept(host: string, path: string) returns (h: string)
    requires (forall i :: 0 <= i < |host| ==> host[i] !in {'/', '?', '#'}) && Quiet(path)
    ensures Without(host + path, {'\t', '\r', '\n'}) == h + path
    ensures forall i :: 0 <= i < |h| ==> h[i] !in {'/', '?', '#'}
  {
    var drop := {'\t', '\r', '\n'};
    WithoutConcat(host, path, drop);
    WithoutNothing(path, drop);
    WithoutKeepsOut(host, drop, {'/', '?', '#'});
    h := Without(host, drop);
  }

  lemma SchemeOfConcat(b: string, path: string)
    requires "http://" <= Lower(b) || "https://" <= Lower(b)
    requires path != [] && !IsSpace(path[|path| - 1])
    ensures Strip(b + path) == b + path && IsHttpUri(b + path) && !IsHl(b + path)
    ensures SchemeLength(b + path) == SchemeLength(b)
  {
    LowerOfConcat(b, path);
    SchemeStart(b + path);
  }

  lemma LowerOfConcat(b: string, path: string)
    ensures Lower(b + path) == Lower(b) + Lower(path)
  {
  }

  /** Such a text is trimmed in front, and no hashlink. */
  lemma SchemeStart(s: string)
    requires "http://" <= Lower(s) || "https://" <= Lower(s)
    requires !IsSpace(s[|s| - 1])
    ensures Strip(s) == s && IsHttpUri(s) && !IsHl(s)
  {
    assert LowerChar(s[0]) == Lower(s)[0] == 'h' && Lower(s)[1] == 't';
    assert Trimmed(s);
  }

  lemma TailOfConcat(b: string, path: string, n: nat)
    requires n <= |b|
    ensures (b + path)[n..] == b[n..] + path
  {
  }

  lemma PathOfConcat(b: string, path: string)
    requires HostOnly(b) && RStripSlash(b) == b
    requires path != [] && path[0] == '/' && path[|path| - 1] != '/' && Quiet(path)
    ensures Strip(b + path) == b + path && IsHttpUri(b + path) && !IsHl(b + path)
    ensures UrlPath(b + path) == path
  {
    SchemeOfConcat(b, path);
    var n := SchemeLength(b);
    TailOfConcat(b, path, n);
    forall i | 0 <= i < |b[n..]| ensures b[n..][i] !in {'/', '?', '#'} {
      assert b[n..][i] == b[n + i];
    }
    PathOfHostAndPath(b[n..], path);
  }

  lemma {:induction false} RStripSlashTwice(s: string)
    ensures RStripSlash(RStripSlash(s)) == RStripSlash(s)
  {
    if s != [] && s[|s| - 1] == '/' {
      RStripSlashTwice(s[..|s| - 1]);
    }
  }

  /** The path of a CAS locator. */
  lemma CasUriPath(hex: string, base: string)
    requires IsHex64(hex) && HostOnly(base)
    ensures CasLdpUri(hex, base).Ok?
    ensures var uri := CasLdpUri(hex, base).value;
      uri != [] && Strip(uri) == uri && IsHttpUri(uri) && !IsHl(uri) && UrlPath(uri) == CAS_PATH + hex
  {
    HexIsTrimmed(hex);
    LowerOfHex(hex);
    var path := CAS_PATH + hex;
    RStripSlashTwice(base);
    PathOfConcat(RStripSlash(base), path);
    assert RStripSlash(base) + CAS_PATH + hex == RStripSlash(base) + path;
  }

  lemma LdpKeyOfCas(hex: string)
    requires IsHex64(hex)
    ensures LdpKey(CAS_PATH + hex) == Some(hex)
  {
    assert (CAS_PATH + hex)[9..] == hex;
  }

  /** A CAS locator printed for a digest reads back as the canonical `ni:` of that digest. */
  lemma CasUriRoundTrip(hex: string, base: string, locators: Locators)
    requires IsHex64(hex) && HostOnly(base)
    ensures CasLdpUri(hex, base).Ok?
    ensures var uri := CasLdpUri(hex, base).value;
      && uri != [] && Strip(uri) == uri && IsHttpUri(uri) && !IsHl(uri)
      && ContentIdFromUri(uri, locators) == Ok(Some(NiOf(HexToBytes(hex))))
  {
    CasUriPath(hex, base);
    LdpKeyOfCas(hex);
    ToNiTrimmed(hex);
  }

  lemma FieldNames(s: string, t: string)
    ensures UriField(s) != CidField(s)
    ensures Plain(s) && Plain(t) && s != t ==>
      UriField(s) != UriField(t) && UriField(s) != CidField(t) && CidField(s) != UriField(t)
      && CidField(s) != CidField(t)
    ensures UriField(s) != "content_id" && CidField(s) != "content_id"
  {
    FieldEnds(s);
    FieldEnds(t);
    if Plain(s) && Plain(t) && s != t {
      assert CidField(s)[..|s|] == s && CidField(t)[..|t|] == t;
      if s != "cid" { assert UriField(s)[..|s|] == s; }
      if t != "cid" { assert UriField(t)[..|t|] == t; }
    }
  }

  lemma FieldEnds(s: string)
    ensures EndsWith(UriField(s), "uri") && EndsWith(CidField(s), "_cid")
    ensures s != "cid" ==> EndsWith(UriField(s), "_uri")
    ensures Plain(s) ==> |CidField(s)| == |s| + 4 && (s != "cid" ==> |UriField(s)| == |s| + 4)
  {
  }

  /** What the writer stores for a digest id: the CAS locator, under the `_uri` name only. */
  lemma SetRefOfDigest(d: Dict, stem: string, id: string, base: string)
    requires Named(id).Some? && HostOnly(base)
    ensures |Named(id).value| == 32
    ensures var uri := CasLdpUri(BytesToHex(Named(id).value), base);
      && uri.Ok?
      && SetRef(d, stem, id, base, None)
         == Ok((Del(Set(d, UriField(stem), Str(uri.value)), CidField(stem)), NiOf(Named(id).value)))
  {
    FromNiNamed(id);
    TargetOfDigest(id);
    TextOfDigest(Named(id).value, base);
  }

  lemma TargetOfDigest(id: string)
    requires Named(id).Some?
    ensures RefTarget(id) == Ok(NiOf(Named(id).value))
  {
    FromNiNamed(id);
    EqualityIdOfNamed(id);
  }

  lemma TextOfDigest(raw: seq<Byte>, base: string)
    requires |raw| == 32 && HostOnly(base)
    ensures CasLdpUri(BytesToHex(raw), base).Ok?
    ensures RefText(NiOf(raw), base, None) == CasLdpUri(BytesToHex(raw), base)
  {
    NamedOfNi(raw);
    FromNiNamed(NiOf(raw));
    NiOfShape(raw);
    CasUriRoundTrip(BytesToHex(raw), base, _ => None);
  }

  lemma WrittenField(d: Dict, stem: string, v: Json)
    ensures var d' := Del(Set(d, UriField(stem), v), CidField(stem));
      Get(d', UriField(stem)) == Some(v) && Get(d', CidField(stem)) == None
  {
    FieldNames(stem, stem);
    var d1 := Set(d, UriField(stem), v);
    GetSet(d, UriField(stem), v, UriField(stem));
    GetDel(d1, CidField(stem), UriField(stem));
    GetDel(d1, CidField(stem), CidField(stem));
  }

  /** The reader's answer on a CAS locator does not depend on any other field or on the locator index. */
  lemma IdOfCasUri(raw: seq<Byte>, base: string, cid: Option<Json>, bare: Option<Json>, stem: string,
                   locators: Locators)
    requires |raw| == 32 && HostOnly(base)
    ensures CasLdpUri(BytesToHex(raw), base).Ok?
    ensures IdOfFields(Some(Str(CasLdpUri(BytesToHex(raw), base).value)), cid, bare, stem, locators)
         == Ok(Some(NiOf(raw)))
  {
    BytesToHexToBytes(raw);
    CasUriRoundTrip(BytesToHex(raw), base, locators);
  }

  /** Writing a digest reference and reading it back gives its canonical `ni:`, and the legacy field is gone. */
  lemma RefRoundTrip(d: Dict, stem: string, id: string, base: string, locators: Locators)
    requires Named(id).Some? && HostOnly(base)
    ensures SetRef(d, stem, id, base, None).Ok?
    ensures var (d', eid) := SetRef(d, stem, id, base, None).value;
      && Ok(eid) == EqualityId(id)
      && RefId(d', stem, locators) == Ok(Some(eid))
      && !Has(d', CidField(stem))
  {
    EqualityIdOfNamed(id);
    SetRefOfDigest(d, stem, id, base);
    var uri := CasLdpUri(BytesToHex(Named(id).value), base).value;
    WrittenField(d, stem, Str(uri));
    IdOfCasUri(Named(id).value, base, None, Get(Del(Set(d, UriField(stem), Str(uri)), CidField(stem)), "content_id"),
               stem, locators);
  }

  /** Frame of the writer: only the stem's own two fields change. */
  lemma SetRefFrame(d: Dict, stem: string, id: string, base: string, uri: Option<string>, k: string)
    requires SetRef(d, stem, id, base, uri).Ok?
    requires k != UriField(stem) && k != CidField(stem)
    ensures Get(SetRef(d, stem, id, base, uri).value.0, k) == Get(d, k)
  {
    forall w: Json ensures Get(Del(Set(d, UriField(stem), w), CidField(stem)), k) == Get(d, k) {
      GetSet(d, UriField(stem), w, k);
      GetDel(Set(d, UriField(stem), w), CidField(stem), k);
    }
  }

  lemma OtherStemsUnchanged(d: Dict, stem: string, id: string, base: string, uri: Option<string>, other: string,
                            locators: Locators)
    requires Plain(stem) && Plain(other) && stem != other
    requires SetRef(d, stem, id, base, uri).Ok?
    ensures var d' := SetRef(d, stem, id, base, uri).value.0;
      RefUri(d', other) == RefUri(d, other) && RefId(d', other, locators) == RefId(d, other, locators)
  {
    FieldNames(stem, other);
    SetRefFrame(d, stem, id, base, uri, UriField(other));
    SetRefFrame(d, stem, id, base, uri, CidField(other));
    SetRefFrame(d, stem, id, base, uri, "content_id");
  }

  /** Ids that the writer stores and the reader gives back unchanged: canonical digests, and opaque ids that
      are neither digests nor URLs. */
  predicate Stable(id: string) {
    if IsNiOrDigest(id) then EqualityId(id) == Ok(id)
    else id != [] && Strip(id) == id && !IsHl(id) && !IsHttpUri(id)
  }

  lemma StableDigest(id: string)
    requires Stable(id) && IsNiOrDigest(id)
    ensures Named(id).Some? && id == NiOf(Named(id).value)
  {
    StripTwice(id);
    FromNiNamed(id);
    EqualityIdOfNamed(id);
  }

  /** The round trip for every stable id, digest or not. */
  lemma StableRoundTrip(d: Dict, stem: string, id: string, base: string, locators: Locators)
    requires Stable(id) && HostOnly(base)
    ensures SetRef(d, stem, id, base, None).Ok?
    ensures RefId(SetRef(d, stem, id, base, None).value.0, stem, locators) == Ok(Some(id))
  {
    if IsNiOrDigest(id) {
      StableDigest(id);
      EqualityIdOfNamed(id);
      RefRoundTrip(d, stem, id, base, locators);
    } else {
      assert SetRef(d, stem, id, base, None) == Ok((Del(Set(d, UriField(stem), Str(id)), CidField(stem)), id));
      WrittenField(d, stem, Str(id));
    }
  }

  /** A field that is no reference field of the stem does not change what the stem reads as. */
  lemma RefIdOfOtherFields(d: Dict, d': Dict, stem: string, locators: Locators)
    requires Get(d', UriField(stem)) == Get(d, UriField(stem)) && Get(d', CidField(stem)) == Get(d, CidField(stem))
    requires Get(d', "content_id") == Get(d, "content_id")
    ensures RefId(d', stem, locators) == RefId(d, stem, locators) && RefUri(d', stem) == RefUri(d, stem)
  {
  }

  /** A JSON object that references are written into. */
  class Document {
    var fields: Dict

    constructor (fields: Dict)
      ensures this.fields == fields
    {
      this.fields := fields;
    }

    /** `set_ref`: on success the object is edited in place, for one stem only; an error leaves it alone. */
    method Refer(stem: string, id: string, base: string, uri: Option<string>) returns (r: Result<string>)
      modifies this
      ensures match SetRef(old(fields), stem, id, base, uri)
        case Ok((after, eid)) => r == Ok(eid) && fields == after
        case Err(_) => r.Err? && fields == old(fields)
      ensures forall k :: k != UriField(stem) && k != CidField(stem) ==> Get(fields, k) == Get(old(fields), k)
      ensures r.Ok? ==> !Has(fields, CidField(stem))
    {
      var eid :- RefTarget(id);
      var text :- RefText(eid, base, uri);
      var was := fields;
      fields := Set(fields, UriField(stem), Str(text));
      if Has(fields, CidField(stem)) {
        fields := Del(fields, CidField(stem));
      } else {
        DelAbsent(fields, CidField(stem));
      }
      WrittenField(was, stem, Str(text));
      forall k | k != UriField(stem) && k != CidField(stem) ensures Get(fields, k) == Get(was, k) {
        SetRefFrame(was, stem, id, base, uri, k);
      }
      return Ok(eid);
    }
  }
}
