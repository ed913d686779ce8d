/** The bucket operations of data/input/structure/infrastructure/obj_store_utils.py as they run, one object
    store call at a time. */
module ErBucket {
  import opened ErStore
  import opened Sorting
  import opened Wrappers

  class DurableBucket {
    const bucketName: string
    const listing: Enumeration
    var objects: Bucket
    /** Every state the bucket has been in since creation. */
    ghost var log: States

    constructor (bucketName: string, listing: Enumeration)
      ensures objects == map[] && log == []
      ensures this.bucketName == bucketName && this.listing == listing
    {
      this.bucketName, this.listing := bucketName, listing;
      objects, log := map[], [];
    }

    /** The calls since `before` went through `states`. */
    twostate predicate Went(states: States)
      reads this
    {
      log == old(log) + states && objects == Final(old(objects), states)
    }

    method PutObject(key: string, c: Content)
      modifies this
      ensures Went([old(objects)[key := c]])
    {
      objects := objects[key := c];
      log := log + [objects];
    }

    method DeleteObject(key: string)
      modifies this
      ensures Went([old(objects) - {key}])
    {
      objects := objects - {key};
      log := log + [objects];
    }

    method DeleteAll(keys: seq<string>)
      modifies this
      ensures Went(DeleteStates(old(objects), keys))
    {
      for i := 0 to |keys|
        invariant log + DeleteStates(objects, keys[i..]) == old(log) + DeleteStates(old(objects), keys)
        invariant Final(objects, DeleteStates(objects, keys[i..]))
             == Final(old(objects), DeleteStates(old(objects), keys))
      {
        assert keys[i..][1..] == keys[i + 1..];
        DeleteObject(keys[i]);
      }
    }

    /** `_delete_prefix`. */
    method DeletePrefix(base: string)
      modifies this
      ensures Went(DeletePrefixStates(old(objects), base, listing))
    {
      var keys := listing(KeysUnder(objects, base));
      DeleteAll(keys);
    }

    method PutAll(base: string, files: seq<(string, Bytes)>)
      modifies this
      ensures Went(WriteStates(old(objects), base, files))
    {
      for i := 0 to |files|
        invariant log + WriteStates(objects, base, files[i..]) == old(log) + WriteStates(old(objects), base, files)
        invariant Final(objects, WriteStates(objects, base, files[i..]))
             == Final(old(objects), WriteStates(old(objects), base, files))
      {
        assert files[i..][1..] == files[i + 1..];
        PutObject(base + "/" + files[i].0, Data(files[i].1));
      }
    }

    /** `write_er_objects`: the local files with their relative paths. */
    method WriteErObjects(sid: string, name: string, files: seq<(string, Bytes)>) returns (r: Result<string>)
      modifies this
      ensures Went(OpStates(old(objects), Write(sid, name, files), bucketName, listing))
      ensures if SafeName(sid) && SafeName(name)
        then r == Ok("s3://" + bucketName + "/structures/" + sid + "/er/" + name)
          && FilesAt(old(objects), objects, "structures/" + sid + "/er/" + name, files)
        else r.Err? && objects == old(objects)
    {
      if !SafeName(sid) || !SafeName(name) {
        return Err("invalid structure_id or er name");
      }
      WriteContents(objects, ErBase(sid, name), files);
      ErUriIs(bucketName, sid, name);
      PutAll(ErBase(sid, name), files);
      return Ok("s3://" + bucketName + "/" + ErBase(sid, name));
    }

    /** `promote_er_pointer`. */
    method PromoteErPointer(sid: string, name: string) returns (r: Result<Pointer>)
      modifies this
      ensures Went(OpStates(old(objects), Promote(sid, name), bucketName, listing))
      ensures if SafeName(sid) && SafeName(name)
        then var p := Pointer("s3://" + bucketName + "/structures/" + sid + "/er/" + name, Some(sid), None, name);
          r == Ok(p) && objects == old(objects)["er/current/" + name := Ptr(p)]
        else r.Err? && objects == old(objects)
    {
      if !SafeName(sid) || !SafeName(name) {
        return Err("invalid structure_id or er name");
      }
      var p := PointerTo(bucketName, sid, name);
      ErUriIs(bucketName, sid, name);
      PutObject(PointerKey(name), Ptr(p));
      return Ok(p);
    }

    method DeleteStructurePrefixes(sids: seq<string>)
      modifies this
      ensures Went(DeleteStructures(old(objects), sids, listing))
    {
      for i := 0 to |sids|
        invariant log + DeleteStructures(objects, sids[i..], listing)
             == old(log) + DeleteStructures(old(objects), sids, listing)
        invariant Final(objects, DeleteStructures(objects, sids[i..], listing))
             == Final(old(objects), DeleteStructures(old(objects), sids, listing))
      {
        assert sids[i..][1..] == sids[i + 1..];
        ghost var first := DeletePrefixStates(objects, StructureBase(sids[i]), listing);
        ghost var rest := DeleteStructures(Final(objects, first), sids[i + 1..], listing);
        FinalConcat(objects, first, rest);
        ghost var before := log;
        DeletePrefix(StructureBase(sids[i]));
        assert log + rest == before + (first + rest);
      }
    }

    /** Deletion of one structure: the given pointers first, its objects after. */
    method DeleteTarget(sid: string, pointers: seq<string>)
      modifies this
      ensures var cleared := DeleteStates(old(objects), pointers);
        Went(cleared + DeletePrefixStates(Final(old(objects), cleared), StructureBase(sid), listing))
    {
      ghost var cleared := DeleteStates(objects, pointers);
      DeleteAll(pointers);
      ghost var rest := DeletePrefixStates(objects, StructureBase(sid), listing);
      DeletePrefix(StructureBase(sid));
      FinalConcat(old(objects), cleared, rest);
      assert old(log) + cleared + rest == old(log) + (cleared + rest);
    }

    /** `gc_er_prefixes`. */
    method GcErPrefixes(delete: bool, target: Option<string>, force: bool) returns (r: Result<seq<string>>)
      modifies this
      ensures Went(OpStates(old(objects), Collect(delete, target, force), bucketName, listing))
      ensures var g := Gc(old(objects), delete, target, force, listing);
        if g.Ok? then r == Ok(g.value.candidates) else r.Err?
      ensures r.Err? || !delete ==> objects == old(objects)
      ensures Enumerates(listing) && target.Some? ==>
        && (r.Ok? <==> SafeName(target.value) && (force || Unreferenced(old(objects), target.value)))
        && (r.Ok? ==> r.value == [target.value])
        && (r.Ok? && delete ==>
              objects == map k | k in old(objects)
                && !Collected(old(objects), target.value, force, k) :: old(objects)[k])
    {
      if target.Some? && Enumerates(listing) {
        TargetedExact(objects, delete, target.value, force, listing);
      }
      if target.Some? {
        var sid := target.value;
        if !SafeName(sid) {
          return Err("invalid structure_id");
        }
        var pointing := Pointing(objects, sid, listing);
        if pointing != [] && !force {
          return Err("structure_id is referenced by er/current pointers");
        }
        if delete {
          DeleteTarget(sid, if force then PointerKeys(pointing) else []);
        }
        return Ok([sid]);
      }
      var candidates := Candidates(objects, listing);
      if delete {
        DeleteStructurePrefixes(candidates);
      }
      return Ok(candidates);
    }
  }
}
