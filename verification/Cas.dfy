/** Digest-keyed blob store (cats/network/cas/store.py). */
module Cas {
  import opened Digest
  import opened Text
  import opened Wrappers

  type Bytes = seq<Byte>

  /** `sha256_hex`. */
  type Sha = Bytes -> string

  ghost predicate IsSha(sha: Sha) {
    forall b :: IsHex64(sha(b))
  }

  /** Blob files by hex name. */
  type Blobs = map<string, Bytes>

  /** The canonical id of some bytes. */
  function IdOf(sha: Sha, data: Bytes): Result<string> {
    ToNi(sha(data))
  }

  /** `CasHttpStore.put`: the blobs afterwards, or the collision error. */
  function PutBlob(sha: Sha, blobs: Blobs, data: Bytes): Result<Blobs> {
    var digest := sha(data);
    if digest !in blobs then Ok(blobs[digest := data])
    else if blobs[digest] != data then Err("CAS digest collision")
    else Ok(blobs)
  }

  function GetBlob(blobs: Blobs, id: string): Result<Option<Bytes>> {
    var digest :- if IsNiOrDigest(id) then FromNi(id) else ValidateDigestSegment(id);
    Ok(if digest in blobs then Some(blobs[digest]) else None)
  }

  /** What was stored stays stored, under the same name. */
  ghost predicate Extends(after: Blobs, before: Blobs) {
    forall d :: d in before ==> d in after && after[d] == before[d]
  }

  /** Every blob lies under its own digest, as in a store filled by `put` alone. */
  ghost predicate Addressed(sha: Sha, blobs: Blobs) {
    forall d :: d in blobs ==> sha(blobs[d]) == d
  }

  class CasHttpStore {
    const sha: Sha
    var blobs: Blobs

    constructor (sha: Sha)
      ensures this.sha == sha && blobs == map[]
    {
      this.sha := sha;
      blobs := map[];
    }

    method Put(data: Bytes) returns (r: Result<string>)
      requires IsSha(sha)
      modifies this
      ensures match PutBlob(sha, old(blobs), data)
        case Ok(after) => blobs == after && r == IdOf(sha, data) && r.Ok?
        case Err(_) => blobs == old(blobs) && r.Err?
      ensures Extends(blobs, old(blobs))
      ensures r.Ok? ==> sha(data) in blobs && blobs[sha(data)] == data
      ensures Addressed(sha, old(blobs)) ==> Addressed(sha, blobs)
    {
      var digest := sha(data);
      ToNiTrimmed(digest);
      if digest !in blobs {
        blobs := blobs[digest := data];
      } else if blobs[digest] != data {
        return Err("CAS digest collision");
      }
      r := ToNi(digest);
    }

    /** The blob filed under the digest of the id, in any spelling, if there is one. */
    method Get(id: string) returns (r: Result<Option<Bytes>>)
      ensures r == GetBlob(blobs, id)
    {
      var digest :- if IsNiOrDigest(id) then FromNi(id) else ValidateDigestSegment(id);
      if digest !in blobs {
        return Ok(None);
      }
      return Ok(Some(blobs[digest]));
    }
  }

  /** A blob reads back under any spelling of its id, through any later puts. */
  lemma PutThenGet(sha: Sha, blobs: Blobs, data: Bytes, later: Blobs, id: string)
    requires IsSha(sha) && PutBlob(sha, blobs, data).Ok? && Extends(later, PutBlob(sha, blobs, data).value)
    requires FromNi(id) == Ok(sha(data))
    ensures GetBlob(later, id) == Ok(Some(data))
  {
    FromNiNamed(id);
  }
}
