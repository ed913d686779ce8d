/** Directory manifests: storing a tree (cats/network/cas/manifest.py). */
module Manifest {
  import opened Cas
  import opened Digest
  import opened DirWalk
  import opened Residue
  import opened Text
  import opened Wrappers

  /** Manifest entries: path to content id. */
  type Entries = map<string, string>

  /** The JSON encoding of a manifest document, sorted by key; `decode` answers for any bytes and gives `None`
      when they are not UTF-8, not JSON, or not a directory manifest. */
  datatype ManifestCodec = ManifestCodec(encode: Entries -> seq<Byte>, decode: seq<Byte> -> Option<Entries>)

  ghost predicate Inverse(codec: ManifestCodec) {
    forall e :: codec.decode(codec.encode(e)) == Some(e)
  }

  function LStripSlash(s: string): string {
    if s != [] && s[0] == '/' then LStripSlash(s[1..]) else s
  }

  function CleanPath(rel: string): string {
    LStripSlash(Replace(rel, '\\', '/'))
  }

  predicate OccursAt(s: string, sub: string, i: int) {
    0 <= i <= |s| - |sub| && s[i..i + |sub|] == sub
  }

  predicate Contains(s: string, sub: string) {
    exists i :: 0 <= i <= |s| && OccursAt(s, sub, i)
  }

  predicate UnsafePath(path: string) {
    path == [] || "../" <= path || Contains("/" + path + "/", "/../")
  }

  /** One turn of the cleaning loop. */
  function AddEntry(cleaned: Entries, rel: string, id: string): Result<Entries> {
    if UnsafePath(CleanPath(rel)) then Err("unsafe manifest path")
    else if !IsNiOrDigest(id) then Err("manifest entry must be ni:/digest")
    else Ok(cleaned[CleanPath(rel) := id])
  }

  /** `build_manifest_entries`, entries in dictionary order. */
  function Build(entries: seq<(string, string)>): Result<Entries> {
    if entries == [] then Ok(map[])
    else
      var k := |entries| - 1;
      var front :- Build(entries[..k]);
      AddEntry(front, entries[k].0, entries[k].1)
  }

  method BuildManifestEntries(entries: seq<(string, string)>) returns (r: Result<Entries>)
    ensures r.Ok? == Build(entries).Ok? && (r.Ok? ==> r == Build(entries))
  {
    var cleaned: Entries := map[];
    for i := 0 to |entries|
      invariant Build(entries[..i]) == Ok(cleaned)
    {
      assert entries[..i + 1][..i] == entries[..i];
      var next := AddEntry(cleaned, entries[i].0, entries[i].1);
      if next.Err? {
        BuildFails(entries, i + 1);
        return next;
      }
      cleaned := next.value;
    }
    assert entries[..|entries|] == entries;
    return Ok(cleaned);
  }

  lemma {:induction false} BuildFails(entries: seq<(string, string)>, i: nat)
    requires i <= |entries| && Build(entries[..i]).Err?
    ensures Build(entries).Err?
    decreases |entries| - i
  {
    if i < |entries| {
      assert entries[..i + 1][..i] == entries[..i];
      BuildFails(entries, i + 1);
    } else {
      assert entries[..i] == entries;
    }
  }

  // --- storing a tree --------------------------------------------------------------------------------

  /** Files by relative path. */
  type FileMap = map<string, seq<Byte>>

  function MapOf(files: Listing): FileMap {
    if files == [] then map[] else MapOf(files[..|files| - 1])[Join(files[|files| - 1].0) := files[|files| - 1].1]
  }

  /** The `entries` of `put_tree`. */
  function IdsOf(sha: Sha, files: Listing): (r: seq<(string, string)>)
    requires IsSha(sha)
    ensures |r| == |files|
  {
    seq(|files|, i requires 0 <= i < |files| => (Join(files[i].0), NiText(sha, files[i].1)))
  }

  function NiText(sha: Sha, data: seq<Byte>): string
    requires IsSha(sha)
  {
    ToNiTrimmed(sha(data));
    ToNi(sha(data)).value
  }

  /** The store holds these bytes under their own digest. */
  ghost predicate Holds(sha: Sha, blobs: Blobs, data: seq<Byte>) {
    sha(data) in blobs && blobs[sha(data)] == data
  }

  ghost predicate HoldsAll(sha: Sha, blobs: Blobs, files: Listing) {
    forall i :: 0 <= i < |files| ==> Holds(sha, blobs, files[i].1)
  }

  lemma HoldsMore(sha: Sha, before: Blobs, after: Blobs, files: Listing)
    requires HoldsAll(sha, before, files) && Extends(after, before)
    ensures HoldsAll(sha, after, files)
  {
  }

  lemma HoldsSnoc(sha: Sha, blobs: Blobs, files: Listing, i: nat)
    requires i < |files| && HoldsAll(sha, blobs, files[..i]) && Holds(sha, blobs, files[i].1)
    ensures HoldsAll(sha, blobs, files[..i + 1])
  {
    assert files[..i + 1] == files[..i] + [files[i]];
  }

  lemma IdsSnoc(sha: Sha, files: Listing, i: nat)
    requires IsSha(sha) && i < |files|
    ensures IdsOf(sha, files)[..i + 1] == IdsOf(sha, files)[..i] + [(Join(files[i].0), NiText(sha, files[i].1))]
  {
  }

  /** Other bytes lie where these belong. */
  ghost predicate Clash(sha: Sha, blobs: Blobs, data: seq<Byte>) {
    sha(data) in blobs && blobs[sha(data)] != data
  }

  method PutOne(store: CasHttpStore, data: seq<Byte>) returns (r: Result<string>)
    requires IsSha(store.sha)
    modifies store
    ensures Extends(store.blobs, old(store.blobs))
    ensures Addressed(store.sha, old(store.blobs)) ==> Addressed(store.sha, store.blobs)
    ensures r.Ok? ==> r.value == NiText(store.sha, data) && Holds(store.sha, store.blobs, data)
    ensures r.Err? ==> Clash(store.sha, store.blobs, data)
  {
    r := store.Put(data);
  }

  /** The loop of `put_tree` over the files it visits. */
  method PutFiles(store: CasHttpStore, files: Listing) returns (r: Result<seq<(string, string)>>)
    requires IsSha(store.sha)
    modifies store
    ensures Extends(store.blobs, old(store.blobs))
    ensures Addressed(store.sha, old(store.blobs)) ==> Addressed(store.sha, store.blobs)
    ensures r.Ok? ==> r.value == IdsOf(store.sha, files) && HoldsAll(store.sha, store.blobs, files)
    ensures r.Err? ==> exists i :: 0 <= i < |files| && Clash(store.sha, store.blobs, files[i].1)
  {
    var entries: seq<(string, string)> := [];
    for i := 0 to |files|
      invariant Extends(store.blobs, old(store.blobs))
      invariant Addressed(store.sha, old(store.blobs)) ==> Addressed(store.sha, store.blobs)
      invariant entries == IdsOf(store.sha, files)[..i]
      invariant HoldsAll(store.sha, store.blobs, files[..i])
    {
      ghost var before := store.blobs;
      var id :- PutOne(store, files[i].1);
      HoldsMore(store.sha, before, store.blobs, files[..i]);
      HoldsSnoc(store.sha, store.blobs, files, i);
      IdsSnoc(store.sha, files, i);
      entries := entries + [(Join(files[i].0), id)];
    }
    assert files[..|files|] == files;
    return Ok(entries);
  }

  /** `put_tree`. */
  method PutTree(store: CasHttpStore, root: seq<Child>, ignore: Ignore, codec: ManifestCodec)
    returns (r: Result<string>)
    requires IsSha(store.sha)
    modifies store
    ensures Extends(store.blobs, old(store.blobs))
    ensures Addressed(store.sha, old(store.blobs)) ==> Addressed(store.sha, store.blobs)
    ensures r.Ok? ==>
      var files := Walk([Frame([], root)], ignore);
      var built := Build(IdsOf(store.sha, files));
      && built.Ok? && r.value == NiText(store.sha, codec.encode(built.value))
      && Holds(store.sha, store.blobs, codec.encode(built.value)) && HoldsAll(store.sha, store.blobs, files)
    ensures r.Err? ==>
      var files := Walk([Frame([], root)], ignore);
      var built := Build(IdsOf(store.sha, files));
      || built.Err? || Clash(store.sha, store.blobs, codec.encode(built.value))
      || exists i :: 0 <= i < |files| && Clash(store.sha, store.blobs, files[i].1)
  {
    var files := WalkLoop(root, ignore);
    var entries :- PutFiles(store, files);
    var manifest :- BuildManifestEntries(entries);
    r := store.Put(codec.encode(manifest));
  }

  // --- clean trees -----------------------------------------------------------------------------------

  /** A relative path of plain components. */
  ghost predicate CleanName(name: string) {
    GoodName(name) && '\\' !in name
  }

  ghost predicate CleanPathOf(p: Path) {
    p != [] && forall i :: 0 <= i < |p| ==> CleanName(p[i])
  }

  lemma JoinStarts(p: Path)
    requires CleanPathOf(p)
    ensures Join(p) != [] && Join(p)[0] != '/'
  {
    assert p[0][0] in p[0];
  }

  lemma {:induction false} SplitConcat(a: string, b: string)
    ensures Split(a + "/" + b) == Split(a) + Split(b)
  {
    var s := a + "/" + b;
    if a == [] {
      assert s[1..] == b;
    } else {
      assert s[1..] == a[1..] + "/" + b;
      SplitConcat(a[1..], b);
    }
  }

  /** A string is its first component, or that component, a slash and the rest. */
  lemma {:induction false} SplitUnfold(s: string)
    ensures var head := Split(s)[0];
      && '/' !in head && head <= s
      && (if |head| == |s| then Split(s) == [head]
          else s[|head|] == '/' && Split(s) == [head] + Split(s[|head| + 1..]))
  {
    if s != [] && s[0] != '/' {
      SplitUnfold(s[1..]);
      var inner := Split(s[1..])[0];
      assert s == [s[0]] + s[1..];
      assert |inner| < |s[1..]| ==> s[|inner| + 2..] == s[1..][|inner| + 1..];
    }
  }

  /** Where `/../` occurs in the padded path, a component is `..`. */
  lemma DotDotComponent(s: string)
    requires Contains("/" + s + "/", "/../")
    ensures ".." in Split(s)
  {
    var t := "/" + s + "/";
    var i :| 0 <= i <= |t| && OccursAt(t, "/../", i);
    assert t[i] == "/../"[0] && t[i + 1] == "/../"[1] && t[i + 2] == "/../"[2] && t[i + 3] == "/../"[3];
    var rest := s[i..];
    assert rest[0] == '.' && rest[1] == '.';
    if |rest| > 2 {
      assert rest[2] == '/';
      assert rest == ".." + "/" + rest[3..];
      SplitHead("..", rest[3..]);
    } else {
      assert rest == "..";
      SplitHead("..", []);
    }
    assert Split(rest)[0] == "..";
    if i > 0 {
      assert s[i - 1] == '/';
      assert s == s[..i - 1] + "/" + rest;
      SplitConcat(s[..i - 1], rest);
      assert Split(s)[|Split(s[..i - 1])|] == "..";
    } else {
      assert s == rest;
    }
  }

  lemma OccursLater(front: string, u: string, sub: string)
    requires Contains(u, sub)
    ensures Contains(front + u, sub)
  {
    var i :| 0 <= i <= |u| && OccursAt(u, sub, i);
    assert (front + u)[i + |front|..] == u[i..];
    assert OccursAt(front + u, sub, i + |front|);
  }

  lemma LeadingDots(s: string)
    requires ".." <= s && (|s| == 2 || s[2] == '/')
    ensures Contains("/" + s + "/", "/../")
  {
    var t := "/" + s + "/";
    assert t[0] == '/' && t[1] == s[0] == '.' && t[2] == s[1] == '.' && t[3] == '/';
    assert t[0..4] == "/../";
    assert OccursAt(t, "/../", 0);
  }

  /** A component `..` shows up as `/../` in the padded path. */
  lemma {:induction false} ComponentOccurs(s: string)
    requires ".." in Split(s)
    ensures Contains("/" + s + "/", "/../")
  {
    SplitUnfold(s);
    var head := Split(s)[0];
    var t := "/" + s + "/";
    if head == ".." {
      LeadingDots(s);
    } else {
      var rest := s[|head| + 1..];
      ComponentOccurs(rest);
      assert t == "/" + head + ("/" + rest + "/");
      OccursLater("/" + head, "/" + rest + "/", "/../");
    }
  }

  /** A path that passes the check stays below its directory: it is relative and has no `..` component. */
  lemma SafePathsConfined(rel: string)
    requires !UnsafePath(CleanPath(rel))
    ensures CleanPath(rel)[0] != '/' && ".." !in Split(CleanPath(rel))
  {
    LStripSlashStarts(Replace(rel, '\\', '/'));
    if ".." in Split(CleanPath(rel)) {
      ComponentOccurs(CleanPath(rel));
    }
  }

  /** The rejected paths are the empty one and those with a `..` component. */
  lemma UnsafeIff(path: string)
    ensures UnsafePath(path) <==> path == [] || ".." in Split(path)
  {
    if ".." in Split(path) {
      ComponentOccurs(path);
    }
    PrefixOccurs(path);
    if Contains("/" + path + "/", "/../") {
      DotDotComponent(path);
    }
  }

  predicate IsSeparator(c: char) {
    c == '/' || c == '\\'
  }

  /** Cleaning drops the leading separators of either kind and makes every other one a slash. */
  lemma {:induction false} CleanPathIs(rel: string, k: nat)
    requires k <= |rel| && forall i :: 0 <= i < k ==> IsSeparator(rel[i])
    requires k < |rel| ==> !IsSeparator(rel[k])
    ensures |CleanPath(rel)| == |rel| - k
    ensures forall i :: k <= i < |rel| ==> CleanPath(rel)[i - k] == if IsSeparator(rel[i]) then '/' else rel[i]
  {
    if k > 0 {
      assert Replace(rel, '\\', '/')[1..] == Replace(rel[1..], '\\', '/');
      assert CleanPath(rel) == CleanPath(rel[1..]);
      CleanPathIs(rel[1..], k - 1);
      forall i | k <= i < |rel| ensures CleanPath(rel)[i - k] == if IsSeparator(rel[i]) then '/' else rel[i] {
        assert rel[i] == rel[1..][i - 1];
      }
    }
  }

  /** An entry that a manifest may have. */
  ghost predicate GoodEntry(e: (string, string)) {
    CleanPath(e.0) != [] && ".." !in Split(CleanPath(e.0)) && IsNiOrDigest(e.1)
  }

  ghost predicate AllGood(entries: seq<(string, string)>) {
    forall i :: 0 <= i < |entries| ==> GoodEntry(entries[i])
  }

  /** The last entry with this cleaned path has this id. */
  ghost predicate LastIs(entries: seq<(string, string)>, i: nat, p: string, id: string) {
    && i < |entries| && entries[i].1 == id && CleanPath(entries[i].0) == p
    && forall j :: i < j < |entries| ==> CleanPath(entries[j].0) != p
  }

  ghost predicate Given(entries: seq<(string, string)>, p: string, id: string) {
    exists i: nat :: LastIs(entries, i, p, id)
  }

  lemma BuildStep(entries: seq<(string, string)>)
    requires entries != []
    ensures var front, last := entries[..|entries| - 1], entries[|entries| - 1];
      && (Build(entries).Ok? <==> Build(front).Ok? && GoodEntry(last))
      && (Build(entries).Ok? ==> Build(entries).value == Build(front).value[CleanPath(last.0) := last.1])
  {
    UnsafeIff(CleanPath(entries[|entries| - 1].0));
  }

  /** A manifest is built exactly when every entry is good. */
  lemma {:induction false} BuildIff(entries: seq<(string, string)>)
    ensures Build(entries).Ok? <==> AllGood(entries)
  {
    if entries != [] {
      BuildStep(entries);
      BuildIff(entries[..|entries| - 1]);
      AllGoodSnoc(entries);
    }
  }

  lemma AllGoodSnoc(entries: seq<(string, string)>)
    requires entries != []
    ensures AllGood(entries) <==> AllGood(entries[..|entries| - 1]) && GoodEntry(entries[|entries| - 1])
  {
  }

  /** It has the cleaned paths and no others, each with the id of its last entry. */
  lemma {:induction false} BuildHas(entries: seq<(string, string)>, p: string, id: string)
    requires Build(entries).Ok?
    ensures p in Build(entries).value && Build(entries).value[p] == id <==> Given(entries, p, id)
  {
    if entries != [] {
      BuildStep(entries);
      BuildHas(entries[..|entries| - 1], p, id);
      GivenSnoc(entries, p, id);
    }
  }

  lemma GivenSnoc(entries: seq<(string, string)>, p: string, id: string)
    requires entries != []
    ensures var front, last := entries[..|entries| - 1], entries[|entries| - 1];
      Given(entries, p, id) <==> (if CleanPath(last.0) == p then last.1 == id else Given(front, p, id))
  {
    var k := |entries| - 1;
    if CleanPath(entries[k].0) == p {
      if last: nat :| LastIs(entries, last, p, id) {
        assert last == k;
      }
      assert entries[k].1 == id ==> LastIs(entries, k, p, id);
    } else {
      if i: nat :| LastIs(entries, i, p, id) {
        assert LastIs(entries[..k], i, p, id);
      }
      if i: nat :| LastIs(entries[..k], i, p, id) {
        assert LastIs(entries, i, p, id);
      }
    }
  }

  lemma {:induction false} LStripSlashStarts(s: string)
    ensures LStripSlash(s) != [] ==> LStripSlash(s)[0] != '/'
  {
    if s != [] && s[0] == '/' {
      LStripSlashStarts(s[1..]);
    }
  }

  lemma PrefixOccurs(s: string)
    ensures "../" <= s ==> Contains("/" + s + "/", "/../")
  {
    if "../" <= s {
      assert OccursAt("/" + s + "/", "/../", 0);
    }
  }

  /** The path of a plain file is clean already and safe. */
  lemma CleanPathIsFixed(p: Path)
    requires CleanPathOf(p)
    ensures CleanPath(Join(p)) == Join(p) && !UnsafePath(Join(p))
  {
    JoinStarts(p);
    JoinChars(p, '\\');
    assert Replace(Join(p), '\\', '/') == Join(p);
    SplitJoin(p);
    PrefixOccurs(Join(p));
    if Contains("/" + Join(p) + "/", "/../") {
      DotDotComponent(Join(p));
    }
  }

  lemma JoinInjective(p: Path, q: Path)
    requires CleanPathOf(p) && CleanPathOf(q) && Join(p) == Join(q)
    ensures p == q
  {
    SplitJoin(p);
    SplitJoin(q);
  }

  /** Clean paths, each listed with one content. */
  ghost predicate CleanListing(files: Listing) {
    && (forall i :: 0 <= i < |files| ==> CleanPathOf(files[i].0))
    && (forall i, j :: 0 <= i < |files| && 0 <= j < |files| && files[i].0 == files[j].0 ==> files[i].1 == files[j].1)
  }

  lemma {:induction false} MapOfKeys(files: Listing, i: nat)
    requires i < |files|
    ensures Join(files[i].0) in MapOf(files)
  {
    if i < |files| - 1 {
      MapOfKeys(files[..|files| - 1], i);
    }
  }

  lemma {:induction false} MapOfHas(files: Listing, rel: string)
    requires CleanListing(files)
    ensures rel in MapOf(files) <==> exists i :: 0 <= i < |files| && Join(files[i].0) == rel
    ensures forall i :: 0 <= i < |files| && Join(files[i].0) == rel ==>
      rel in MapOf(files) && MapOf(files)[rel] == files[i].1
  {
    if files != [] {
      var k := |files| - 1;
      MapOfHas(files[..k], rel);
      FoundInFront(files, rel);
      if Join(files[k].0) == rel {
        SamePathSameBytes(files, rel, k);
      }
    }
  }

  lemma FoundInFront(files: Listing, rel: string)
    requires files != []
    ensures var k := |files| - 1;
      && ((exists i :: 0 <= i < |files| && Join(files[i].0) == rel) <==>
          Join(files[k].0) == rel || exists i :: 0 <= i < |files[..k]| && Join(files[..k][i].0) == rel)
      && forall i :: 0 <= i < k ==> files[..k][i] == files[i]
  {
    var k := |files| - 1;
    assert forall i :: 0 <= i < k ==> files[..k][i] == files[i];
  }

  lemma SamePathSameBytes(files: Listing, rel: string, k: nat)
    requires CleanListing(files) && k < |files| && Join(files[k].0) == rel
    ensures forall i :: 0 <= i < |files| && Join(files[i].0) == rel ==> files[i].1 == files[k].1
  {
    forall i | 0 <= i < |files| && Join(files[i].0) == rel ensures files[i].1 == files[k].1 {
      JoinInjective(files[i].0, files[k].0);
    }
  }

  /** Every file by the id of its bytes. */
  ghost function IdMap(sha: Sha, files: FileMap): Entries
    requires IsSha(sha)
  {
    map rel | rel in files :: NiText(sha, files[rel])
  }

  lemma IdMapUpdate(sha: Sha, files: FileMap, rel: string, data: seq<Byte>)
    requires IsSha(sha)
    ensures IdMap(sha, files[rel := data]) == IdMap(sha, files)[rel := NiText(sha, data)]
  {
  }

  /** The manifest of a clean listing: every file under its own path, by the id of its bytes. */
  lemma {:induction false} BuildOfClean(sha: Sha, files: Listing)
    requires IsSha(sha) && CleanListing(files)
    ensures Build(IdsOf(sha, files)) == Ok(IdMap(sha, MapOf(files)))
  {
    if files != [] {
      var k := |files| - 1;
      BuildOfClean(sha, files[..k]);
      assert IdsOf(sha, files)[..k] == IdsOf(sha, files[..k]);
      CleanPathIsFixed(files[k].0);
      NiTextNames(sha, files[k].1);
      IdMapUpdate(sha, MapOf(files[..k]), Join(files[k].0), files[k].1);
    } else {
      assert IdMap(sha, map[]) == map[];
    }
  }

  lemma NiTextNames(sha: Sha, data: seq<Byte>)
    requires IsSha(sha)
    ensures IsNiOrDigest(NiText(sha, data)) && FromNi(NiText(sha, data)) == Ok(sha(data))
  {
    NiRoundTrip(sha(data));
  }

  // --- trees -----------------------------------------------------------------------------------------

  /** No kept file has a backslash in its path. */
  ghost predicate KeptClean(root: seq<Child>, ignore: Ignore) {
    forall p, b :: Kept(root, [], p, b, ignore) ==> '\\' !in Join(p)
  }

  /** The kept files of a directory have plain paths then. */
  lemma KeptIsClean(root: seq<Child>, ignore: Ignore, p: Path, b: seq<Byte>)
    requires WellNamed(root) && Kept(root, [], p, b, ignore) && '\\' !in Join(p)
    ensures CleanPathOf(p)
  {
    LookupNames(root, p);
    JoinChars(p, '\\');
  }

  lemma WalkIsClean(root: seq<Child>, ignore: Ignore)
    requires WellNamed(root) && KeptClean(root, ignore)
    ensures CleanListing(Walk([Frame([], root)], ignore))
  {
    var files := Walk([Frame([], root)], ignore);
    forall i | 0 <= i < |files| ensures Lookup(root, files[i].0) == Some(files[i].1) && CleanPathOf(files[i].0) {
      assert (files[i].0, files[i].1) in files;
      WalkIsFilter(root, ignore, files[i].0, files[i].1);
      KeptIsClean(root, ignore, files[i].0, files[i].1);
    }
  }

  /** The files a tree contributes: those none of whose path prefixes is ignored. */
  ghost function KeptFiles(root: seq<Child>, ignore: Ignore): FileMap {
    MapOf(Walk([Frame([], root)], ignore))
  }

  lemma KeptFilesAre(root: seq<Child>, ignore: Ignore, rel: string, bytes: seq<Byte>)
    requires WellNamed(root) && KeptClean(root, ignore)
    ensures rel in KeptFiles(root, ignore) && KeptFiles(root, ignore)[rel] == bytes <==>
      exists p :: rel == Join(p) && Kept(root, [], p, bytes, ignore)
  {
    var files := Walk([Frame([], root)], ignore);
    WalkIsClean(root, ignore);
    MapOfHas(files, rel);
    if rel in KeptFiles(root, ignore) && KeptFiles(root, ignore)[rel] == bytes {
      var i :| 0 <= i < |files| && Join(files[i].0) == rel;
      assert (files[i].0, bytes) in files;
      WalkIsFilter(root, ignore, files[i].0, bytes);
    }
    if p :| rel == Join(p) && Kept(root, [], p, bytes, ignore) {
      WalkIsFilter(root, ignore, p, bytes);
      var i :| 0 <= i < |files| && files[i] == (p, bytes);
      assert Join(files[i].0) == rel;
    }
  }

  /** The manifest id of a clean tree. */
  ghost function TreeId(sha: Sha, codec: ManifestCodec, kept: FileMap): string
    requires IsSha(sha)
  {
    NiText(sha, codec.encode(IdMap(sha, kept)))
  }

  /** The id of a stored tree depends only on its kept files: neither on the walk order, nor on what is ignored. */
  lemma ManifestIdIsOfKeptFiles(sha: Sha, codec: ManifestCodec, root: seq<Child>, ignore: Ignore)
    requires IsSha(sha) && WellNamed(root) && KeptClean(root, ignore)
    ensures var built := Build(IdsOf(sha, Walk([Frame([], root)], ignore)));
      built.Ok? && NiText(sha, codec.encode(built.value)) == TreeId(sha, codec, KeptFiles(root, ignore))
  {
    WalkIsClean(root, ignore);
    BuildOfClean(sha, Walk([Frame([], root)], ignore));
  }

  /** Two trees that agree on the files without residue prefixes get the same manifest id. */
  lemma SameKeptSameId(sha: Sha, codec: ManifestCodec, a: seq<Child>, b: seq<Child>, ignore: Ignore)
    requires IsSha(sha) && WellNamed(a) && WellNamed(b) && KeptClean(a, ignore)
    requires forall p, bytes :: Kept(a, [], p, bytes, ignore) <==> Kept(b, [], p, bytes, ignore)
    ensures TreeId(sha, codec, KeptFiles(a, ignore)) == TreeId(sha, codec, KeptFiles(b, ignore))
  {
    forall rel ensures rel in KeptFiles(a, ignore) <==> rel in KeptFiles(b, ignore) {
      if rel in KeptFiles(a, ignore) { AgreeAt(a, b, ignore, rel); }
      if rel in KeptFiles(b, ignore) { AgreeAt(b, a, ignore, rel); }
    }
    forall rel | rel in KeptFiles(a, ignore) ensures KeptFiles(a, ignore)[rel] == KeptFiles(b, ignore)[rel] {
      AgreeAt(a, b, ignore, rel);
    }
    assert KeptFiles(a, ignore) == KeptFiles(b, ignore);
  }

  lemma AgreeAt(a: seq<Child>, b: seq<Child>, ignore: Ignore, rel: string)
    requires WellNamed(a) && KeptClean(a, ignore) && WellNamed(b) && KeptClean(b, ignore)
    requires forall p, bytes :: Kept(a, [], p, bytes, ignore) <==> Kept(b, [], p, bytes, ignore)
    requires rel in KeptFiles(a, ignore)
    ensures rel in KeptFiles(b, ignore) && KeptFiles(b, ignore)[rel] == KeptFiles(a, ignore)[rel]
  {
    var bytes := KeptFiles(a, ignore)[rel];
    KeptFilesAre(a, ignore, rel, bytes);
    KeptFilesAre(b, ignore, rel, bytes);
  }
}
