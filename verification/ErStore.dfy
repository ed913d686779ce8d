/** Durable Entity Relationship objects with pointer-aware garbage collection
    (data/input/structure/infrastructure/obj_store_utils.py), over the key-value view of the bucket. */
module ErStore {
  import opened Sorting
  import opened Text
  import opened Wrappers

  type Bytes = seq<Byte>

  /** The JSON under `er/current/<name>`; the id sits in `structure_id`, in old pointers in `structure_cid`. */
  datatype Pointer = Pointer(uri: string, structureId: Option<string>, structureCid: Option<string>, name: string)

  datatype Content = Data(bytes: Bytes) | Ptr(pointer: Pointer)

  type Bucket = map<string, Content>

  // --- names and keys --------------------------------------------------------------------------------

  predicate IsSafeChar(c: char) {
    IsAlnum(c) || c == '.' || c == '_' || c == '-'
  }

  /** `^[A-Za-z0-9._-]+$`, where `$` also matches before one final line feed. */
  predicate SafeName(s: string) {
    && s != []
    && IsSafeChar(s[0])
    && (forall i :: 0 <= i < |s| - 1 ==> IsSafeChar(s[i]))
    && (IsSafeChar(s[|s| - 1]) || s[|s| - 1] == '\n')
  }

  function StructureBase(sid: string): string { "structures/" + sid }
  function ErBase(sid: string, name: string): string { StructureBase(sid) + "/er/" + name }
  function PointerKey(name: string): string { "er/current/" + name }

  /** What a recursive selector on `base` returns. */
  predicate Under(key: string, base: string) {
    base + "/" <= key
  }

  ghost predicate NoSlash(s: string) {
    forall i :: 0 <= i < |s| ==> s[i] != '/'
  }

  lemma SafeHasNoSlash(s: string)
    requires SafeName(s)
    ensures NoSlash(s)
  {
    forall i | 0 <= i < |s| ensures s[i] != '/' {
      assert i < |s| - 1 || i == |s| - 1;
    }
  }

  /** A key lies under one structure only: an id never owns the keys of an id that extends it. */
  lemma OneOwner(key: string, a: string, b: string)
    requires NoSlash(a) && NoSlash(b) && Under(key, StructureBase(a)) && Under(key, StructureBase(b))
    ensures a == b
  {
    var p := |"structures/"|;
    assert key[p..p + |a|] == a && key[p + |a|] == '/';
    assert key[p..p + |b|] == b && key[p + |b|] == '/';
  }

  lemma PointerKeyApart(name: string, sid: string)
    ensures !Under(PointerKey(name), StructureBase(sid))
  {
    assert PointerKey(name)[0] == 'e' && (StructureBase(sid) + "/")[0] == 's';
  }

  // --- reading the bucket ----------------------------------------------------------------------------

  function PointerStructureId(p: Pointer): Option<string> {
    if p.structureId.Some? && p.structureId.value != [] then p.structureId else p.structureCid
  }

  /** `resolve_er_pointer`, for a valid name. */
  function ResolvePointer(b: Bucket, name: string): Option<Pointer> {
    if PointerKey(name) in b && b[PointerKey(name)].Ptr? then Some(b[PointerKey(name)].pointer) else None
  }

  /** The structure a pointer refers to, when it refers to one. */
  function Target(b: Bucket, name: string): Option<string> {
    match ResolvePointer(b, name)
    case None => None
    case Some(p) => var sid := PointerStructureId(p); if sid.Some? && sid.value != [] then sid else None
  }

  function NameOfPointerKey(key: string): Option<string> {
    if "er/current/" <= key && SafeName(key[11..]) then Some(key[11..]) else None
  }

  /** The names of `list_er_current_pointers`. */
  function PointerNames(b: Bucket): set<string> {
    set k | k in b && NameOfPointerKey(k).Some? :: NameOfPointerKey(k).value
  }

  lemma PointerNamesAre(b: Bucket, name: string)
    ensures name in PointerNames(b) <==> SafeName(name) && PointerKey(name) in b
  {
    assert PointerKey(name)[11..] == name;
    assert SafeName(name) ==> NameOfPointerKey(PointerKey(name)) == Some(name);
    if name in PointerNames(b) {
      var k :| k in b && NameOfPointerKey(k) == Some(name);
      assert k == "er/current/" + k[11..];
    }
  }

  function Referenced(b: Bucket): set<string> {
    set n | n in PointerNames(b) && Target(b, n).Some? :: Target(b, n).value
  }

  /** The first path segment below `structures/`. */
  function ChildOf(key: string): Option<string> {
    if "structures/" <= key then Some(Segment(key[11..])) else None
  }

  function Segment(s: string): (r: string)
    ensures NoSlash(r)
    ensures r <= s && (|r| < |s| ==> s[|r|] == '/')
  {
    if s == [] || s[0] == '/' then []
    else
      assert s == [s[0]] + s[1..];
      [s[0]] + Segment(s[1..])
  }

  /** `list_structure_ids`, as a set. */
  function StructureIds(b: Bucket): set<string> {
    set k | k in b && ChildOf(k).Some? && SafeName(ChildOf(k).value) :: ChildOf(k).value
  }

  // --- the invariant ---------------------------------------------------------------------------------

  ghost predicate HasObjects(b: Bucket, sid: string, name: string) {
    exists k :: k in b && Under(k, ErBase(sid, name))
  }

  /** Every pointer that resolves still has its objects. */
  ghost predicate Safe(b: Bucket) {
    forall n :: SafeName(n) && Target(b, n).Some? ==> HasObjects(b, Target(b, n).value, n)
  }

  /** Pointers name structures by a valid id, and a structure is a prefix, never an object itself. */
  ghost predicate WellKeyed(b: Bucket) {
    && (forall n :: SafeName(n) && Target(b, n).Some? ==> SafeName(Target(b, n).value))
    && (forall n :: SafeName(n) && PointerKey(n) in b ==> b[PointerKey(n)].Ptr?)
    && (forall sid :: SafeName(sid) ==> StructureBase(sid) !in b)
  }

  ghost predicate Inv(b: Bucket) {
    Safe(b) && WellKeyed(b)
  }

  // --- operations, as the sequence of bucket states they go through ----------------------------------

  type States = seq<Bucket>

  function Final(b: Bucket, states: States): Bucket {
    if states == [] then b else states[|states| - 1]
  }

  lemma FinalConcat(b: Bucket, xs: States, ys: States)
    ensures Final(b, xs + ys) == Final(Final(b, xs), ys)
  {
  }

  function DeleteStates(b: Bucket, keys: seq<string>): States {
    if keys == [] then [] else [b - {keys[0]}] + DeleteStates(b - {keys[0]}, keys[1..])
  }

  function KeysUnder(b: Bucket, base: string): set<string> {
    set k | k in b && Under(k, base)
  }

  function DeletePrefixStates(b: Bucket, base: string, listing: Enumeration): States {
    DeleteStates(b, listing(KeysUnder(b, base)))
  }

  function DeleteStructures(b: Bucket, sids: seq<string>, listing: Enumeration): States
    decreases |sids|
  {
    if sids == [] then []
    else
      var first := DeletePrefixStates(b, StructureBase(sids[0]), listing);
      first + DeleteStructures(Final(b, first), sids[1..], listing)
  }

  function Filter(xs: seq<string>, keep: string -> bool): (r: seq<string>)
    ensures forall x :: x in r <==> x in xs && keep(x)
  {
    if xs == [] then []
    else
      assert xs == [xs[0]] + xs[1..];
      (if keep(xs[0]) then [xs[0]] else []) + Filter(xs[1..], keep)
  }

  /** The pointers to one structure, in listing order. */
  function Pointing(b: Bucket, sid: string, listing: Enumeration): seq<string> {
    Filter(listing(PointerNames(b)), n => Target(b, n) == Some(sid))
  }

  function PointerKeys(names: seq<string>): (ks: seq<string>)
    ensures |ks| == |names| && forall i :: 0 <= i < |ks| ==> ks[i] == PointerKey(names[i])
  {
    seq(|names|, i requires 0 <= i < |names| => PointerKey(names[i]))
  }

  /** The structures a sweep would delete: listed, and referenced by no pointer. */
  function Candidates(b: Bucket, listing: Enumeration): seq<string> {
    Filter(Sort(listing(StructureIds(b)), LexLeq), sid => sid !in Referenced(b))
  }

  datatype GcResult = GcResult(candidates: seq<string>, states: States)

  /** `gc_er_prefixes`: a targeted call on one structure, or a sweep of the unreferenced ones. */
  function Gc(b: Bucket, delete: bool, target: Option<string>, force: bool, listing: Enumeration): Result<GcResult> {
    match target
    case Some(sid) =>
      if !SafeName(sid) then Err("invalid structure_id")
      else
        var pointing := Pointing(b, sid, listing);
        if pointing != [] && !force then Err("structure_id is referenced by er/current pointers")
        else if !delete then Ok(GcResult([sid], []))
        else
          var cleared := if force then DeleteStates(b, PointerKeys(pointing)) else [];
          Ok(GcResult([sid], cleared + DeletePrefixStates(Final(b, cleared), StructureBase(sid), listing)))
    case None =>
      var candidates := Candidates(b, listing);
      Ok(GcResult(candidates, if delete then DeleteStructures(b, candidates, listing) else []))
  }

  function WriteStates(b: Bucket, base: string, files: seq<(string, Bytes)>): States
    decreases |files|
  {
    if files == [] then []
    else
      var b1 := b[base + "/" + files[0].0 := Data(files[0].1)];
      [b1] + WriteStates(b1, base, files[1..])
  }

  function PointerTo(bucketName: string, sid: string, name: string): Pointer {
    Pointer("s3://" + bucketName + "/" + ErBase(sid, name), Some(sid), None, name)
  }

  /** The URI of the objects, and the pointer to them, in full. */
  lemma ErUriIs(bucketName: string, sid: string, name: string)
    ensures "s3://" + bucketName + "/" + ErBase(sid, name)
         == "s3://" + bucketName + "/structures/" + sid + "/er/" + name
    ensures PointerTo(bucketName, sid, name)
         == Pointer("s3://" + bucketName + "/structures/" + sid + "/er/" + name, Some(sid), None, name)
  {
    assert "s3://" + bucketName + "/" + ("structures/" + sid + "/er/" + name)
        == "s3://" + bucketName + "/structures/" + sid + "/er/" + name;
  }

  datatype Op =
    | Write(sid: string, name: string, files: seq<(string, Bytes)>)
    | Promote(sid: string, name: string)
    | Collect(delete: bool, target: Option<string>, force: bool)

  /** The states an operation goes through, one per object put or deleted; none when it raises. */
  function OpStates(b: Bucket, op: Op, bucketName: string, listing: Enumeration): States {
    match op
    case Write(sid, name, files) =>
      if SafeName(sid) && SafeName(name) then WriteStates(b, ErBase(sid, name), files) else []
    case Promote(sid, name) =>
      if SafeName(sid) && SafeName(name) then [b[PointerKey(name) := Ptr(PointerTo(bucketName, sid, name))]] else []
    case Collect(delete, target, force) =>
      match Gc(b, delete, target, force, listing)
      case Ok(r) => r.states
      case Err(_) => []
  }

  // --- one deletion ----------------------------------------------------------------------------------

  ghost predicate AllInv(states: States) {
    forall i :: 0 <= i < |states| ==> Inv(states[i])
  }

  /** No pointer refers to the structure. */
  ghost predicate Unreferenced(b: Bucket, sid: string) {
    forall n :: SafeName(n) ==> Target(b, n) != Some(sid)
  }

  /** Deleting an object of an unreferenced structure keeps the invariant and every pointer. */
  lemma DeleteObjectKeeps(b: Bucket, key: string, sid: string)
    requires Inv(b) && SafeName(sid) && Unreferenced(b, sid) && Under(key, StructureBase(sid))
    ensures Inv(b - {key}) && Unreferenced(b - {key}, sid)
    ensures forall n :: Target(b - {key}, n) == Target(b, n)
  {
    var b' := b - {key};
    SafeHasNoSlash(sid);
    forall n ensures Target(b', n) == Target(b, n) && key != PointerKey(n) {
      PointerKeyApart(n, sid);
    }
    forall n | SafeName(n) && Target(b', n).Some? ensures HasObjects(b', Target(b', n).value, n) {
      var owner := Target(b, n).value;
      var k :| k in b && Under(k, ErBase(owner, n));
      UnderEr(k, owner, n);
      SafeHasNoSlash(owner);
      if k == key {
        OneOwner(key, owner, sid);
      }
      assert k in b';
    }
  }

  lemma UnderEr(k: string, sid: string, n: string)
    requires Under(k, ErBase(sid, n))
    ensures Under(k, StructureBase(sid))
  {
    assert ErBase(sid, n) + "/" == StructureBase(sid) + "/" + ("er/" + n + "/");
  }

  lemma DeletePointerKeeps(b: Bucket, name: string)
    requires Inv(b)
    ensures Inv(b - {PointerKey(name)})
    ensures forall n :: n != name ==> Target(b - {PointerKey(name)}, n) == Target(b, n)
    ensures Target(b - {PointerKey(name)}, name) == None
  {
    var b' := b - {PointerKey(name)};
    forall n ensures n != name ==> Target(b', n) == Target(b, n) {
      assert PointerKey(n)[11..] == n && PointerKey(name)[11..] == name;
    }
    forall n | SafeName(n) && Target(b', n).Some? ensures HasObjects(b', Target(b', n).value, n) {
      var k :| k in b && Under(k, ErBase(Target(b, n).value, n));
      UnderEr(k, Target(b, n).value, n);
      PointerKeyApart(name, Target(b, n).value);
      assert k in b';
    }
  }

  // --- runs of deletions -----------------------------------------------------------------------------

  lemma {:induction false} FinalDelete(b: Bucket, keys: seq<string>)
    ensures Final(b, DeleteStates(b, keys)) == b - (set k | k in keys)
  {
    if keys == [] {
      assert (set k | k in keys) == {};
    } else {
      FinalDelete(b - {keys[0]}, keys[1..]);
      assert b - {keys[0]} - (set k | k in keys[1..]) == b - (set k | k in keys);
    }
  }

  lemma {:induction false} DeleteObjectsKeep(b: Bucket, keys: seq<string>, sid: string)
    requires Inv(b) && SafeName(sid) && Unreferenced(b, sid)
    requires forall k :: k in keys ==> Under(k, StructureBase(sid))
    ensures AllInv(DeleteStates(b, keys)) && Inv(Final(b, DeleteStates(b, keys)))
    ensures forall n :: Target(Final(b, DeleteStates(b, keys)), n) == Target(b, n)
  {
    if keys != [] {
      assert keys[0] in keys;
      DeleteObjectKeeps(b, keys[0], sid);
      assert forall k :: k in keys[1..] ==> k in keys;
      DeleteObjectsKeep(b - {keys[0]}, keys[1..], sid);
    }
  }

  lemma {:induction false} DeletePointersKeep(b: Bucket, names: seq<string>)
    requires Inv(b)
    ensures AllInv(DeleteStates(b, PointerKeys(names)))
    ensures Inv(Final(b, DeleteStates(b, PointerKeys(names))))
  {
    if names != [] {
      DeletePointerKeeps(b, names[0]);
      assert PointerKeys(names)[1..] == PointerKeys(names[1..]);
      DeletePointersKeep(b - {PointerKey(names[0])}, names[1..]);
    }
  }

  lemma TargetsAfterPointers(b: Bucket, names: seq<string>, n: string)
    ensures Target(Final(b, DeleteStates(b, PointerKeys(names))), n) == if n in names then None else Target(b, n)
  {
    var keys := PointerKeys(names);
    FinalDelete(b, keys);
    assert forall m :: PointerKey(m)[11..] == m;
    if n in names {
      var i :| 0 <= i < |names| && names[i] == n;
      assert keys[i] == PointerKey(n);
    }
  }

  /** A structure deletion removes exactly the keys under its own prefix. */
  lemma DeletePrefixKeeps(b: Bucket, sid: string, listing: Enumeration)
    requires Inv(b) && SafeName(sid) && Unreferenced(b, sid) && Enumerates(listing)
    ensures var states := DeletePrefixStates(b, StructureBase(sid), listing);
      && AllInv(states) && Inv(Final(b, states))
      && (forall n :: Target(Final(b, states), n) == Target(b, n))
      && Final(b, states) == b - KeysUnder(b, StructureBase(sid))
  {
    var keys := listing(KeysUnder(b, StructureBase(sid)));
    FinalDelete(b, keys);
    assert (set k | k in keys) == KeysUnder(b, StructureBase(sid));
    DeleteObjectsKeep(b, keys, sid);
  }

  /** Deleting one structure touches no key of another, even one whose id extends it as a string. */
  lemma OtherStructuresUntouched(b: Bucket, sid: string, other: string, key: string)
    requires SafeName(sid) && SafeName(other) && sid != other && Under(key, StructureBase(other))
    ensures key in b - KeysUnder(b, StructureBase(sid)) <==> key in b
  {
    SafeHasNoSlash(sid);
    SafeHasNoSlash(other);
    if Under(key, StructureBase(sid)) {
      OneOwner(key, sid, other);
    }
  }

  lemma {:induction false} DeleteStructuresKeep(b: Bucket, sids: seq<string>, listing: Enumeration)
    requires Inv(b) && Enumerates(listing)
    requires forall sid :: sid in sids ==> SafeName(sid) && Unreferenced(b, sid)
    ensures var states := DeleteStructures(b, sids, listing);
      && AllInv(states) && Inv(Final(b, states))
      && (forall n :: Target(Final(b, states), n) == Target(b, n))
      && (forall k :: k in Final(b, states) <==> k in b && forall sid :: sid in sids ==> !Under(k, StructureBase(sid)))
    decreases |sids|
  {
    if sids != [] {
      assert sids[0] in sids;
      DeletePrefixKeeps(b, sids[0], listing);
      var first := DeletePrefixStates(b, StructureBase(sids[0]), listing);
      var b1 := Final(b, first);
      forall sid | sid in sids[1..] ensures SafeName(sid) && Unreferenced(b1, sid) {
        assert sid in sids;
      }
      DeleteStructuresKeep(b1, sids[1..], listing);
      var rest := DeleteStructures(b1, sids[1..], listing);
      assert Final(b, first + rest) == Final(b1, rest);
      assert sids == [sids[0]] + sids[1..];
    }
  }

  // --- what a write leaves ---------------------------------------------------------------------------

  /** No later entry has the same relative path. */
  ghost predicate LastEntry(files: seq<(string, Bytes)>, i: nat) {
    i < |files| && forall j :: i < j < |files| ==> files[j].0 != files[i].0
  }

  /** The files are under the base with their bytes, the last entry of a path winning, and nothing else changed. */
  ghost predicate FilesAt(before: Bucket, after: Bucket, base: string, files: seq<(string, Bytes)>) {
    && (forall i: nat :: LastEntry(files, i) ==>
          base + "/" + files[i].0 in after && after[base + "/" + files[i].0] == Data(files[i].1))
    && (forall k :: (forall i :: 0 <= i < |files| ==> k != base + "/" + files[i].0) ==> SameAt(before, after, k))
  }

  ghost predicate SameAt(before: Bucket, after: Bucket, k: string) {
    (k in after <==> k in before) && (k in before ==> after[k] == before[k])
  }

  lemma {:induction false} WriteContents(b: Bucket, base: string, files: seq<(string, Bytes)>)
    ensures FilesAt(b, Final(b, WriteStates(b, base, files)), base, files)
    decreases |files|
  {
    if files != [] {
      var b1 := b[base + "/" + files[0].0 := Data(files[0].1)];
      WriteContents(b1, base, files[1..]);
      FinalConcat(b, [b1], WriteStates(b1, base, files[1..]));
      FirstFile(b, b1, Final(b1, WriteStates(b1, base, files[1..])), base, files);
    }
  }

  lemma FirstFile(b: Bucket, b1: Bucket, after: Bucket, base: string, files: seq<(string, Bytes)>)
    requires files != [] && b1 == b[base + "/" + files[0].0 := Data(files[0].1)]
    requires FilesAt(b1, after, base, files[1..])
    ensures FilesAt(b, after, base, files)
  {
    forall i: nat | LastEntry(files, i)
      ensures base + "/" + files[i].0 in after && after[base + "/" + files[i].0] == Data(files[i].1)
    {
      if i > 0 {
        assert files[i] == files[1..][i - 1] && LastEntry(files[1..], i - 1);
      } else {
        SamePathOnly(base, files);
        assert SameAt(b1, after, base + "/" + files[0].0);
      }
    }
    forall k | forall i :: 0 <= i < |files| ==> k != base + "/" + files[i].0 ensures SameAt(b, after, k) {
      assert forall i :: 0 <= i < |files[1..]| ==> files[1..][i] == files[i + 1];
      assert SameAt(b1, after, k);
    }
  }

  lemma SamePathOnly(base: string, files: seq<(string, Bytes)>)
    requires LastEntry(files, 0)
    ensures forall i :: 0 <= i < |files[1..]| ==> base + "/" + files[0].0 != base + "/" + files[1..][i].0
  {
    forall i | 0 <= i < |files[1..]| ensures base + "/" + files[0].0 != base + "/" + files[1..][i].0 {
      assert files[1..][i] == files[i + 1];
      assert (base + "/" + files[0].0)[|base| + 1..] == files[0].0;
      assert (base + "/" + files[i + 1].0)[|base| + 1..] == files[i + 1].0;
    }
  }

  // --- garbage collection ----------------------------------------------------------------------------

  lemma ReferencedIff(b: Bucket, sid: string)
    requires sid != []
    ensures sid in Referenced(b) <==> !Unreferenced(b, sid)
  {
    if n :| SafeName(n) && Target(b, n) == Some(sid) {
      PointerNamesAre(b, n);
    }
    if sid in Referenced(b) {
      var n :| n in PointerNames(b) && Target(b, n) == Some(sid);
      PointerNamesAre(b, n);
    }
  }

  lemma PointingIff(b: Bucket, sid: string, listing: Enumeration, n: string)
    requires Enumerates(listing)
    ensures n in Pointing(b, sid, listing) <==> SafeName(n) && Target(b, n) == Some(sid)
  {
    PointerNamesAre(b, n);
  }

  lemma InvConcat(b: Bucket, first: seq<Bucket>, rest: seq<Bucket>)
    ensures Final(b, first + rest) == Final(Final(b, first), rest)
    ensures AllInv(first) && AllInv(rest) ==> AllInv(first + rest)
  {
  }

  /** Targeted collection, forced or not, keeps the invariant after every single put or delete. */
  lemma TargetedKeeps(b: Bucket, delete: bool, sid: string, force: bool, listing: Enumeration)
    requires Inv(b) && Enumerates(listing)
    ensures var r := Gc(b, delete, Some(sid), force, listing);
      r.Ok? ==> AllInv(r.value.states) && Inv(Final(b, r.value.states))
  {
    var pointing := Pointing(b, sid, listing);
    if SafeName(sid) && delete && (pointing == [] || force) {
      var cleared := if force then DeleteStates(b, PointerKeys(pointing)) else [];
      var b1 := Final(b, cleared);
      DeletePointersKeep(b, pointing);
      forall n | SafeName(n) ensures Target(b1, n) != Some(sid) {
        TargetsAfterPointers(b, pointing, n);
        PointingIff(b, sid, listing, n);
      }
      DeletePrefixKeeps(b1, sid, listing);
      InvConcat(b, cleared, DeletePrefixStates(b1, StructureBase(sid), listing));
    }
  }

  /** The keys a targeted collection takes away: those of the structure, and with `force` the pointers to it. */
  ghost predicate Collected(b: Bucket, sid: string, force: bool, k: string) {
    || "structures/" + sid + "/" <= k
    || (force && exists n :: SafeName(n) && Target(b, n) == Some(sid) && k == "er/current/" + n)
  }

  /** A targeted call is refused for a malformed id, and without `force` for one that a pointer refers to. Otherwise it
      names that structure, and deleting takes away exactly its keys and, forced, the pointers to it. */
  lemma TargetedExact(b: Bucket, delete: bool, sid: string, force: bool, listing: Enumeration)
    requires Enumerates(listing)
    ensures var r := Gc(b, delete, Some(sid), force, listing);
      && (r.Ok? <==> SafeName(sid) && (force || Unreferenced(b, sid)))
      && (r.Ok? ==> r.value.candidates == [sid] && (!delete ==> r.value.states == []))
      && (r.Ok? && delete ==> Final(b, r.value.states) == map k | k in b && !Collected(b, sid, force, k) :: b[k])
  {
    var pointing := Pointing(b, sid, listing);
    forall n ensures n in pointing <==> SafeName(n) && Target(b, n) == Some(sid) {
      PointingIff(b, sid, listing, n);
    }
    assert Unreferenced(b, sid) ==> pointing == [] by {
      if pointing != [] {
        assert pointing[0] in pointing;
      }
    }
    if SafeName(sid) && delete && (pointing == [] || force) {
      var cleared := if force then PointerKeys(pointing) else [];
      assert DeleteStates(b, []) == [];
      ClearedAre(b, sid, force, pointing, cleared);
      TargetDeleted(b, sid, force, cleared, listing);
    }
  }

  lemma TargetDeleted(b: Bucket, sid: string, force: bool, cleared: seq<string>, listing: Enumeration)
    requires Enumerates(listing)
    requires forall k :: k in cleared <==>
      force && exists n :: SafeName(n) && Target(b, n) == Some(sid) && k == "er/current/" + n
    ensures var states := DeleteStates(b, cleared);
      Final(b, states + DeletePrefixStates(Final(b, states), StructureBase(sid), listing))
           == map k | k in b && !Collected(b, sid, force, k) :: b[k]
  {
    var b1 := Final(b, DeleteStates(b, cleared));
    var keys := listing(KeysUnder(b1, StructureBase(sid)));
    FinalDelete(b, cleared);
    FinalDelete(b1, keys);
    FinalConcat(b, DeleteStates(b, cleared), DeleteStates(b1, keys));
    assert forall k :: k in b - (set x | x in cleared) - (set x | x in keys) <==>
      k in b && !Collected(b, sid, force, k);
  }

  lemma ClearedAre(b: Bucket, sid: string, force: bool, pointing: seq<string>, cleared: seq<string>)
    requires forall n :: n in pointing <==> SafeName(n) && Target(b, n) == Some(sid)
    requires cleared == if force then PointerKeys(pointing) else []
    ensures forall k :: k in cleared <==>
      force && exists n :: SafeName(n) && Target(b, n) == Some(sid) && k == "er/current/" + n
  {
    if force {
      forall n | n in pointing ensures "er/current/" + n in cleared {
        var i :| 0 <= i < |pointing| && pointing[i] == n;
        assert cleared[i] == PointerKey(n);
      }
      forall k | k in cleared ensures exists n :: SafeName(n) && Target(b, n) == Some(sid) && k == "er/current/" + n {
        var i :| 0 <= i < |cleared| && cleared[i] == k;
        assert pointing[i] in pointing;
      }
    }
  }

  lemma CandidatesAre(b: Bucket, listing: Enumeration, sid: string)
    requires Enumerates(listing)
    ensures sid in Candidates(b, listing) <==> sid in StructureIds(b) && sid !in Referenced(b)
  {
    LexIsTotal();
    var ids := listing(StructureIds(b));
    SortSorts(ids, LexLeq);
    assert sid in multiset(Sort(ids, LexLeq)) <==> sid in multiset(ids);
  }

  lemma StructureIdsAre(b: Bucket, sid: string)
    requires WellKeyed(b)
    ensures sid in StructureIds(b) <==> SafeName(sid) && exists k :: k in b && Under(k, StructureBase(sid))
  {
    if sid in StructureIds(b) {
      var k :| k in b && ChildOf(k) == Some(sid) && SafeName(sid);
      ChildMeansUnder(k, sid);
    }
    if SafeName(sid) && exists k :: k in b && Under(k, StructureBase(sid)) {
      var k :| k in b && Under(k, StructureBase(sid));
      UnderMeansChild(k, sid);
      assert ChildOf(k) == Some(sid);
    }
  }

  lemma ChildMeansUnder(k: string, sid: string)
    requires ChildOf(k) == Some(sid) && k != StructureBase(sid)
    ensures Under(k, StructureBase(sid))
  {
    assert k == "structures/" + k[11..];
    assert k[11..][..|sid|] == sid;
    assert k[11..][..|sid| + 1] == sid + "/";
    assert k[..11 + |sid| + 1] == StructureBase(sid) + "/";
  }

  lemma UnderMeansChild(k: string, sid: string)
    requires Under(k, StructureBase(sid)) && SafeName(sid)
    ensures ChildOf(k) == Some(sid)
  {
    SafeHasNoSlash(sid);
    var rest := k[11..];
    assert StructureBase(sid) + "/" == "structures/" + (sid + "/");
    assert rest[..|sid| + 1] == sid + "/";
    SegmentIs(rest, sid);
  }

  lemma {:induction false} SegmentIs(s: string, head: string)
    requires NoSlash(head) && head + "/" <= s
    ensures Segment(s) == head
  {
    if head != [] {
      assert s[0] == head[0];
      assert head[1..] + "/" <= s[1..] by {
        assert (head + "/")[1..] == head[1..] + "/";
      }
      SegmentIs(s[1..], head[1..]);
    }
  }

  lemma CandidatesSorted(b: Bucket, listing: Enumeration)
    ensures SortedBy(Candidates(b, listing), LexLeq)
  {
    LexIsTotal();
    var ids := listing(StructureIds(b));
    SortSorts(ids, LexLeq);
    FilterSorted(Sort(ids, LexLeq), sid => sid !in Referenced(b));
  }

  lemma {:induction false} FilterSorted(xs: seq<string>, keep: string -> bool)
    requires SortedBy(xs, LexLeq)
    ensures SortedBy(Filter(xs, keep), LexLeq)
  {
    if xs != [] {
      FilterSorted(xs[1..], keep);
      var rest := Filter(xs[1..], keep);
      forall j | 0 <= j < |rest| ensures LexLeq(xs[0], rest[j]) {
        assert rest[j] in xs[1..];
      }
    }
  }

  /** Deletions change no content. */
  lemma {:induction false} DeletedStays(b: Bucket, keys: seq<string>)
    ensures forall k :: k in Final(b, DeleteStates(b, keys)) ==> k in b && Final(b, DeleteStates(b, keys))[k] == b[k]
  {
    FinalDelete(b, keys);
  }

  lemma {:induction false} SweptStays(b: Bucket, sids: seq<string>, listing: Enumeration)
    ensures var b' := Final(b, DeleteStructures(b, sids, listing)); forall k :: k in b' ==> k in b && b'[k] == b[k]
    decreases |sids|
  {
    if sids != [] {
      var first := DeletePrefixStates(b, StructureBase(sids[0]), listing);
      DeletedStays(b, listing(KeysUnder(b, StructureBase(sids[0]))));
      SweptStays(Final(b, first), sids[1..], listing);
      FinalConcat(b, first, DeleteStructures(Final(b, first), sids[1..], listing));
    }
  }

  lemma SweepKeeps(b: Bucket, listing: Enumeration)
    requires Inv(b) && Enumerates(listing)
    ensures var states := DeleteStructures(b, Candidates(b, listing), listing);
      && AllInv(states) && Inv(Final(b, states))
      && (forall n :: Target(Final(b, states), n) == Target(b, n))
      && (forall k :: k in Final(b, states) <==>
            k in b && forall sid :: sid in Candidates(b, listing) ==> !Under(k, StructureBase(sid)))
  {
    var candidates := Candidates(b, listing);
    forall sid | sid in candidates ensures SafeName(sid) && Unreferenced(b, sid) {
      CandidatesAre(b, listing, sid);
      StructureIdsAre(b, sid);
      ReferencedIff(b, sid);
    }
    DeleteStructuresKeep(b, candidates, listing);
  }

  /** A deleting sweep leaves exactly the structures that are referenced, with all their objects; a second
      sweep finds nothing; a dry run returns the same list and touches nothing. */
  lemma SweepExact(b: Bucket, listing: Enumeration)
    requires Inv(b) && Enumerates(listing)
    ensures var swept := Gc(b, true, None, false, listing);
      var b' := Final(b, swept.value.states);
      && swept.Ok?
      && (forall sid :: sid in StructureIds(b') <==> sid in StructureIds(b) && sid in Referenced(b))
      && (forall k, sid :: sid in Referenced(b) && Under(k, StructureBase(sid)) ==> (k in b' <==> k in b))
      && b' == (map k | k in b && !BelowAny(swept.value.candidates, k) :: b[k])
      && SortedBy(swept.value.candidates, LexLeq)
      && (forall sid :: sid in swept.value.candidates <==> sid in StructureIds(b) && sid !in Referenced(b))
      && Gc(b', true, None, false, listing).value.candidates == []
      && Gc(b, false, None, false, listing) == Ok(GcResult(swept.value.candidates, []))
  {
    var candidates := Candidates(b, listing);
    var b' := Final(b, DeleteStructures(b, candidates, listing));
    SweepKeeps(b, listing);
    SweptBucket(b, listing);
    CandidatesSorted(b, listing);
    forall sid ensures sid in candidates <==> sid in StructureIds(b) && sid !in Referenced(b) {
      CandidatesAre(b, listing, sid);
    }
    forall sid ensures sid in StructureIds(b') <==> sid in StructureIds(b) && sid in Referenced(b) {
      SweptIds(b, b', listing, sid);
    }
    forall k, sid | sid in Referenced(b) && Under(k, StructureBase(sid)) ensures k in b' <==> k in b {
      SweptKeys(b, b', listing, k, sid);
    }
    SecondSweep(b, b', listing);
  }

  ghost predicate BelowAny(sids: seq<string>, k: string) {
    exists sid :: sid in sids && "structures/" + sid + "/" <= k
  }

  lemma SweptBucket(b: Bucket, listing: Enumeration)
    requires Inv(b) && Enumerates(listing)
    ensures Final(b, DeleteStructures(b, Candidates(b, listing), listing))
         == map k | k in b && !BelowAny(Candidates(b, listing), k) :: b[k]
  {
    SweepKeeps(b, listing);
    SweptStays(b, Candidates(b, listing), listing);
    assert forall k, sid :: Under(k, StructureBase(sid)) <==> "structures/" + sid + "/" <= k;
  }

  lemma SecondSweep(b: Bucket, b': Bucket, listing: Enumeration)
    requires WellKeyed(b) && WellKeyed(b') && Enumerates(listing) && forall n :: Target(b', n) == Target(b, n)
    requires forall sid :: sid in StructureIds(b') ==> sid in Referenced(b)
    ensures Candidates(b', listing) == []
  {
    if Candidates(b', listing) != [] {
      var sid := Candidates(b', listing)[0];
      CandidatesAre(b', listing, sid);
      SameReferences(b, b', sid);
    }
  }

  lemma SameReferences(b: Bucket, b': Bucket, sid: string)
    requires WellKeyed(b) && WellKeyed(b') && sid in StructureIds(b')
    requires forall n :: Target(b', n) == Target(b, n)
    ensures sid in Referenced(b') <==> sid in Referenced(b)
  {
    StructureIdsAre(b', sid);
    ReferencedIff(b, sid);
    ReferencedIff(b', sid);
  }

  ghost predicate Swept(b: Bucket, b': Bucket, listing: Enumeration) {
    && Inv(b) && Inv(b') && Enumerates(listing)
    && (forall k :: k in b' <==> k in b && forall sid :: sid in Candidates(b, listing) ==>
        !Under(k, StructureBase(sid)))
  }

  lemma SweptKeys(b: Bucket, b': Bucket, listing: Enumeration, k: string, sid: string)
    requires Swept(b, b', listing) && sid in Referenced(b) && Under(k, StructureBase(sid))
    ensures k in b' <==> k in b
  {
    var n :| n in PointerNames(b) && Target(b, n) == Some(sid);
    PointerNamesAre(b, n);
    SafeHasNoSlash(sid);
    forall other | other in Candidates(b, listing) ensures !Under(k, StructureBase(other)) {
      CandidatesAre(b, listing, other);
      StructureIdsAre(b, other);
      SafeHasNoSlash(other);
      if Under(k, StructureBase(other)) {
        OneOwner(k, sid, other);
      }
    }
  }

  lemma SweptIds(b: Bucket, b': Bucket, listing: Enumeration, sid: string)
    requires Swept(b, b', listing)
    ensures sid in StructureIds(b') <==> sid in StructureIds(b) && sid in Referenced(b)
  {
    StructureIdsAre(b, sid);
    StructureIdsAre(b', sid);
    CandidatesAre(b, listing, sid);
    if sid in StructureIds(b) && sid in Referenced(b) {
      var k :| k in b && Under(k, StructureBase(sid));
      SweptKeys(b, b', listing, k, sid);
    }
  }

  /** The structure a pointer's JSON names: `structure_id`, or `structure_cid` where that is missing or empty. */
  ghost predicate Names(p: Pointer, sid: string) {
    sid != [] && (p.structureId == Some(sid)
                  || ((p.structureId == None || p.structureId == Some("")) && p.structureCid == Some(sid)))
  }

  /** A pointer under `er/current/` protects every object of the structure it names: no sweep takes one away, and a
      targeted call without `force` is refused. */
  lemma PointerProtects(b: Bucket, name: string, p: Pointer, sid: string, k: string, listing: Enumeration)
    requires Inv(b) && Enumerates(listing) && SafeName(name)
    requires "er/current/" + name in b && b["er/current/" + name] == Ptr(p) && Names(p, sid)
    requires "structures/" + sid + "/" <= k && k in b
    ensures var swept := Gc(b, true, None, false, listing);
      swept.Ok? && k in Final(b, swept.value.states) && sid !in swept.value.candidates
    ensures forall delete :: Gc(b, delete, Some(sid), false, listing).Err?
  {
    assert PointerKey(name) == "er/current/" + name && Target(b, name) == Some(sid);
    ReferencedIff(b, sid);
    SweepExact(b, listing);
    CandidatesAre(b, listing, sid);
    forall delete ensures Gc(b, delete, Some(sid), false, listing).Err? {
      TargetedExact(b, delete, sid, false, listing);
    }
  }

  // --- writes, promotions and whole runs -------------------------------------------------------------

  /** An object key below a structure is neither a pointer nor a bare structure. */
  lemma WriteObjectKeeps(b: Bucket, sid: string, name: string, rel: string, bytes: Bytes)
    requires Inv(b) && SafeName(sid) && SafeName(name)
    ensures Inv(b[ErBase(sid, name) + "/" + rel := Data(bytes)])
  {
    var key := ErBase(sid, name) + "/" + rel;
    var b' := b[key := Data(bytes)];
    assert Under(key, StructureBase(sid)) by {
      assert key == StructureBase(sid) + "/" + ("er/" + name + "/" + rel);
    }
    forall n ensures Target(b', n) == Target(b, n) && key != PointerKey(n) {
      PointerKeyApart(n, sid);
    }
    forall n | SafeName(n) && Target(b', n).Some? ensures HasObjects(b', Target(b', n).value, n) {
      var k :| k in b && Under(k, ErBase(Target(b, n).value, n));
      assert k in b';
    }
    forall other | SafeName(other) ensures StructureBase(other) !in b' {
      SafeHasNoSlash(other);
      assert NoSlash(StructureBase(other)[11..]) by { assert StructureBase(other)[11..] == other; }
      assert key[11 + |sid|] == '/' by { assert key[..11 + |sid| + 1] == StructureBase(sid) + "/"; }
    }
  }

  lemma {:induction false} WriteKeeps(b: Bucket, sid: string, name: string, files: seq<(string, Bytes)>)
    requires Inv(b) && SafeName(sid) && SafeName(name)
    ensures var states := WriteStates(b, ErBase(sid, name), files); AllInv(states) && Inv(Final(b, states))
    decreases |files|
  {
    if files != [] {
      WriteObjectKeeps(b, sid, name, files[0].0, files[0].1);
      WriteKeeps(b[ErBase(sid, name) + "/" + files[0].0 := Data(files[0].1)], sid, name, files[1..]);
    }
  }

  /** Promotion keeps the invariant exactly when the promoted objects are there at that moment. */
  lemma PromoteKeepsIff(b: Bucket, sid: string, name: string, bucketName: string)
    requires Inv(b) && SafeName(sid) && SafeName(name)
    ensures Inv(b[PointerKey(name) := Ptr(PointerTo(bucketName, sid, name))]) <==> HasObjects(b, sid, name)
  {
    var b' := b[PointerKey(name) := Ptr(PointerTo(bucketName, sid, name))];
    assert forall m :: PointerKey(m)[11..] == m;
    assert forall n :: Target(b', n) == if n == name then Some(sid) else Target(b, n);
    forall s, n | SafeName(s) ensures HasObjects(b', s, n) <==> HasObjects(b, s, n) {
      if k :| k in b' && Under(k, ErBase(s, n)) {
        UnderEr(k, s, n);
        PointerKeyApart(name, s);
        assert k in b;
      }
      if k :| k in b && Under(k, ErBase(s, n)) {
        assert k in b';
      }
    }
    forall other | SafeName(other) ensures StructureBase(other) != PointerKey(name) {
      assert StructureBase(other)[0] == 's' && PointerKey(name)[0] == 'e';
    }
    assert HasObjects(b, sid, name) ==> Safe(b') && WellKeyed(b');
    assert Safe(b') ==> Target(b', name) == Some(sid) ==> HasObjects(b', sid, name);
  }

  /** Objects are promoted only while they are there. */
  ghost predicate Disciplined(b: Bucket, op: Op) {
    op.Promote? && SafeName(op.sid) && SafeName(op.name) ==> HasObjects(b, op.sid, op.name)
  }

  lemma OpKeeps(b: Bucket, op: Op, bucketName: string, listing: Enumeration)
    requires Inv(b) && Enumerates(listing) && Disciplined(b, op)
    ensures AllInv(OpStates(b, op, bucketName, listing)) && Inv(Final(b, OpStates(b, op, bucketName, listing)))
  {
    match op {
      case Write(sid, name, files) =>
        if SafeName(sid) && SafeName(name) { WriteKeeps(b, sid, name, files); }
      case Promote(sid, name) =>
        if SafeName(sid) && SafeName(name) { PromoteKeepsIff(b, sid, name, bucketName); }
      case Collect(delete, target, force) =>
        if target.Some? {
          TargetedKeeps(b, delete, target.value, force, listing);
        } else {
          SweepKeeps(b, listing);
        }
    }
  }

  /** Every state of a run, one per object put or deleted. */
  function RunStates(b: Bucket, ops: seq<Op>, bucketName: string, listing: Enumeration): States
    decreases |ops|
  {
    if ops == [] then []
    else
      var first := OpStates(b, ops[0], bucketName, listing);
      first + RunStates(Final(b, first), ops[1..], bucketName, listing)
  }

  ghost predicate DisciplinedRun(b: Bucket, ops: seq<Op>, bucketName: string, listing: Enumeration)
    decreases |ops|
  {
    ops == [] ||
    (Disciplined(b, ops[0]) && DisciplinedRun(Final(b, OpStates(b, ops[0], bucketName, listing)), ops[1..],
                                              bucketName, listing))
  }

  /** Safety of whole runs: after every single put and delete of every run of writes, promotions, sweeps and
      targeted or forced collections, each pointer that resolves still has its objects. */
  lemma {:induction false} RunSafe(b: Bucket, ops: seq<Op>, bucketName: string, listing: Enumeration)
    requires Inv(b) && Enumerates(listing) && DisciplinedRun(b, ops, bucketName, listing)
    ensures AllInv(RunStates(b, ops, bucketName, listing))
    decreases |ops|
  {
    if ops != [] {
      OpKeeps(b, ops[0], bucketName, listing);
      RunSafe(Final(b, OpStates(b, ops[0], bucketName, listing)), ops[1..], bucketName, listing);
    }
  }

  lemma EmptyBucketInv()
    ensures Inv(map[])
  {
  }

  // --- which runs are disciplined --------------------------------------------------------------------

  /** Every promotion comes after a write of at least one object under its name, with no deleting collection since;
      `done` holds the names written so far. */
  ghost predicate WrittenFirst(ops: seq<Op>, done: set<(string, string)>)
    decreases |ops|
  {
    ops == [] ||
    match ops[0]
    case Write(sid, name, files) =>
      WrittenFirst(ops[1..], if SafeName(sid) && SafeName(name) && files != [] then done + {(sid, name)} else done)
    case Promote(sid, name) =>
      (SafeName(sid) && SafeName(name) ==> (sid, name) in done) && WrittenFirst(ops[1..], done)
    case Collect(delete, _, _) => WrittenFirst(ops[1..], if delete then {} else done)
  }

  ghost predicate AllThere(b: Bucket, done: set<(string, string)>) {
    forall sid, name :: (sid, name) in done ==> HasObjects(b, sid, name)
  }

  lemma StaysThere(b: Bucket, b': Bucket, done: set<(string, string)>)
    requires AllThere(b, done) && forall k :: k in b ==> k in b'
    ensures AllThere(b', done)
  {
    forall sid, name | (sid, name) in done ensures HasObjects(b', sid, name) {
      var k :| k in b && Under(k, ErBase(sid, name));
      assert k in b';
    }
  }

  lemma {:induction false} WriteAdds(b: Bucket, base: string, files: seq<(string, Bytes)>)
    ensures forall k :: k in b ==> k in Final(b, WriteStates(b, base, files))
    ensures forall i :: 0 <= i < |files| ==> base + "/" + files[i].0 in Final(b, WriteStates(b, base, files))
    ensures forall k :: k in Final(b, WriteStates(b, base, files)) && !Under(k, base) ==>
      k in b && Final(b, WriteStates(b, base, files))[k] == b[k]
    decreases |files|
  {
    if files != [] {
      var key := base + "/" + files[0].0;
      var b1 := b[key := Data(files[0].1)];
      WriteAdds(b1, base, files[1..]);
      assert Final(b, WriteStates(b, base, files)) == Final(b1, WriteStates(b1, base, files[1..])) by {
        FinalConcat(b, [b1], WriteStates(b1, base, files[1..]));
      }
      assert Under(key, base);
      forall i | 0 <= i < |files| ensures base + "/" + files[i].0 in Final(b1, WriteStates(b1, base, files[1..])) {
        if i > 0 {
          assert files[i] == files[1..][i - 1];
        }
      }
    }
  }

  /** Such runs are disciplined, so `RunSafe` covers them. */
  lemma {:induction false} WrittenFirstIsDisciplined(b: Bucket, ops: seq<Op>, done: set<(string, string)>,
                                                     bucketName: string,
                                                     listing: Enumeration)
    requires AllThere(b, done) && WrittenFirst(ops, done)
    ensures DisciplinedRun(b, ops, bucketName, listing)
    decreases |ops|
  {
    if ops != [] {
      var b' := Final(b, OpStates(b, ops[0], bucketName, listing));
      match ops[0]
      case Write(sid, name, files) =>
        if SafeName(sid) && SafeName(name) {
          WriteAdds(b, ErBase(sid, name), files);
          StaysThere(b, b', done);
          if files != [] {
            assert Under(ErBase(sid, name) + "/" + files[0].0, ErBase(sid, name));
            assert HasObjects(b', sid, name);
            WrittenFirstIsDisciplined(b', ops[1..], done + {(sid, name)}, bucketName, listing);
          } else {
            WrittenFirstIsDisciplined(b', ops[1..], done, bucketName, listing);
          }
        } else {
          WrittenFirstIsDisciplined(b', ops[1..], done, bucketName, listing);
        }
      case Promote(sid, name) =>
        StaysThere(b, b', done);
        WrittenFirstIsDisciplined(b', ops[1..], done, bucketName, listing);
      case Collect(delete, target, force) =>
        if !delete {
          WrittenFirstIsDisciplined(b', ops[1..], done, bucketName, listing);
        } else {
          WrittenFirstIsDisciplined(b', ops[1..], {}, bucketName, listing);
        }
    }
  }

  /** Writing leaves every pointer as it was. */
  lemma WriteKeepsTargets(b: Bucket, sid: string, name: string, files: seq<(string, Bytes)>, n: string)
    requires SafeName(sid) && SafeName(name)
    ensures Target(Final(b, WriteStates(b, ErBase(sid, name), files)), n) == Target(b, n)
  {
    WriteAdds(b, ErBase(sid, name), files);
    if Under(PointerKey(n), ErBase(sid, name)) {
      UnderEr(PointerKey(n), sid, name);
      PointerKeyApart(n, sid);
    }
  }

  /** A sweep between write and promotion takes the objects away: that run is not disciplined. */
  lemma SweepInBetween(b: Bucket, sid: string, name: string, files: seq<(string, Bytes)>, bucketName: string,
                       listing: Enumeration)
    requires Inv(b) && Enumerates(listing) && SafeName(sid) && SafeName(name) && files != []
    requires sid !in Referenced(b)
    ensures !DisciplinedRun(b, [Write(sid, name, files), Collect(true, None, false), Promote(sid, name)], bucketName,
                            listing)
  {
    var b1 := Final(b, WriteStates(b, ErBase(sid, name), files));
    WriteKeeps(b, sid, name, files);
    StillUnreferenced(b, sid, name, files);
    WrittenIsThere(b, sid, name, files);
    SweptAway(b1, sid, name, listing);
    ThreeOps(b, Write(sid, name, files), Collect(true, None, false), Promote(sid, name), bucketName, listing);
  }

  lemma WrittenIsThere(b: Bucket, sid: string, name: string, files: seq<(string, Bytes)>)
    requires SafeName(sid) && SafeName(name) && files != []
    requires Inv(Final(b, WriteStates(b, ErBase(sid, name), files)))
    ensures sid in StructureIds(Final(b, WriteStates(b, ErBase(sid, name), files)))
  {
    WriteAdds(b, ErBase(sid, name), files);
    var key := ErBase(sid, name) + "/" + files[0].0;
    assert Under(key, ErBase(sid, name));
    UnderEr(key, sid, name);
    StructureIdsAre(Final(b, WriteStates(b, ErBase(sid, name), files)), sid);
  }

  /** A sweep takes the objects of an unreferenced structure away. */
  lemma SweptAway(b: Bucket, sid: string, name: string, listing: Enumeration)
    requires Inv(b) && Enumerates(listing) && SafeName(sid) && sid in StructureIds(b) && sid !in Referenced(b)
    ensures !HasObjects(Final(b, DeleteStructures(b, Candidates(b, listing), listing)), sid, name)
  {
    CandidatesAre(b, listing, sid);
    SweepKeeps(b, listing);
    var after := Final(b, DeleteStructures(b, Candidates(b, listing), listing));
    if k :| k in after && Under(k, ErBase(sid, name)) {
      UnderEr(k, sid, name);
    }
  }

  lemma ThreeOps(b: Bucket, first: Op, second: Op, third: Op, bucketName: string, listing: Enumeration)
    requires var b1 := Final(b, OpStates(b, first, bucketName, listing));
      !Disciplined(Final(b1, OpStates(b1, second, bucketName, listing)), third)
    ensures !DisciplinedRun(b, [first, second, third], bucketName, listing)
  {
    var ops := [first, second, third];
    var b1 := Final(b, OpStates(b, first, bucketName, listing));
    assert ops[1..] == [second, third] && ops[1..][1..] == [third];
    assert !DisciplinedRun(Final(b1, OpStates(b1, second, bucketName, listing)), ops[1..][1..], bucketName, listing);
    assert !DisciplinedRun(b1, ops[1..], bucketName, listing);
  }

  lemma StillUnreferenced(b: Bucket, sid: string, name: string, files: seq<(string, Bytes)>)
    requires SafeName(sid) && SafeName(name) && sid !in Referenced(b)
    ensures sid !in Referenced(Final(b, WriteStates(b, ErBase(sid, name), files)))
  {
    var b1 := Final(b, WriteStates(b, ErBase(sid, name), files));
    assert sid != [];
    if sid in Referenced(b1) {
      var n :| n in PointerNames(b1) && Target(b1, n) == Some(sid);
      PointerNamesAre(b1, n);
      WriteKeepsTargets(b, sid, name, files, n);
      ReferencedIff(b, sid);
    }
  }
}
