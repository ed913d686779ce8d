/** Layout directories of parts: writing, listing and reading them back
    (data/input/structure/plant/partition_layout.py, `run_partition_ingress` of ray_io_utils.py). */
module PartitionLayout {
  import opened Partition
  import opened Sorting
  import opened Text

  ghost predicate Distinct<T>(xs: seq<T>) {
    forall i, j :: 0 <= i < j < |xs| ==> xs[i] != xs[j]
  }

  /** A directory of byte shards. */
  type ShardDir = map<string, Bytes>

  /** Writing shard `i` under name `i`, in turn. */
  function Write(names: seq<string>, shards: seq<Bytes>): (dir: ShardDir)
    requires |names| == |shards|
    ensures forall name :: name in dir <==> name in names
  {
    if names == [] then map[]
    else
      var k := |names| - 1;
      assert names == names[..k] + [names[k]];
      Write(names[..k], shards[..k])[names[k] := shards[k]]
  }

  lemma {:induction false} Written(names: seq<string>, shards: seq<Bytes>, i: nat)
    requires |names| == |shards| && Distinct(names) && i < |names|
    ensures names[i] in Write(names, shards) && Write(names, shards)[names[i]] == shards[i]
  {
    var k := |names| - 1;
    if i < k {
      Written(names[..k], shards[..k], i);
    }
  }

  /** `list_part_shards`: the `part-*` names that are not CARs, sorted. `listing` is the directory as the
      file system enumerates it. */
  function ListPartShards(listing: seq<string>): seq<string> {
    Sort(PartsOf(listing), LexLeq)
  }

  predicate IsPartName(name: string) {
    "part-" <= name && !EndsWith(name, ".car")
  }

  function PartsOf(listing: seq<string>): seq<string> {
    if listing == [] then []
    else (if IsPartName(listing[0]) then [listing[0]] else []) + PartsOf(listing[1..])
  }

  /** An enumeration of the directory, each name once. */
  ghost predicate ListsOnce(listing: seq<string>, dir: ShardDir) {
    Distinct(listing) && forall name :: name in listing <==> name in dir
  }

  function ReadParts(names: seq<string>, dir: ShardDir): Bytes
    requires forall name :: name in names ==> name in dir
  {
    if names == [] then [] else ReadParts(names[..|names| - 1], dir) + dir[names[|names| - 1]]
  }

  lemma {:induction false} PartsOfHas(listing: seq<string>, name: string)
    ensures name in PartsOf(listing) <==> name in listing && "part-" <= name && !EndsWith(name, ".car")
  {
    if listing != [] {
      PartsOfHas(listing[1..], name);
    }
  }

  /** A reader lists the part names of the directory, and no other file that lies there. */
  lemma ListedIff(listing: seq<string>, name: string)
    ensures name in ListPartShards(listing) <==> name in listing && "part-" <= name && !EndsWith(name, ".car")
  {
    LexIsTotal();
    PartsOfHas(listing, name);
    SortSorts(PartsOf(listing), LexLeq);
    assert name in ListPartShards(listing) <==> name in multiset(ListPartShards(listing));
    assert name in PartsOf(listing) <==> name in multiset(PartsOf(listing));
  }

  lemma {:induction false} AllAreParts(listing: seq<string>)
    requires forall name :: name in listing ==> IsPartName(name)
    ensures PartsOf(listing) == listing
  {
    if listing != [] {
      assert forall name :: name in listing[1..] ==> name in listing;
      AllAreParts(listing[1..]);
      assert listing[0] in listing;
    }
  }

  lemma {:induction false} OnceInDistinct<T(!new)>(a: seq<T>, x: T)
    requires Distinct(a)
    ensures multiset(a)[x] == if x in a then 1 else 0
  {
    if a != [] {
      OnceInDistinct(a[1..], x);
      assert a == [a[0]] + a[1..];
    }
  }

  lemma EnumerationsAgree(a: seq<string>, b: seq<string>)
    requires Distinct(a) && Distinct(b) && forall x :: x in a <==> x in b
    ensures multiset(a) == multiset(b)
  {
    forall x ensures multiset(a)[x] == multiset(b)[x] {
      OnceInDistinct(a, x);
      OnceInDistinct(b, x);
    }
  }

  /** What a reader lists is a sorted arrangement of the names written. */
  lemma Listed(names: seq<string>, dir: ShardDir, listing: seq<string>)
    requires Distinct(names) && (forall name :: name in names ==> IsPartName(name))
    requires (forall name :: name in dir <==> name in names) && ListsOnce(listing, dir)
    ensures var sorted := ListPartShards(listing);
      && multiset(sorted) == multiset(names) && |sorted| == |names| && SortedBy(sorted, LexLeq)
      && (forall name :: name in sorted ==> name in dir)
  {
    LexIsTotal();
    AllAreParts(listing);
    SortSorts(listing, LexLeq);
    EnumerationsAgree(listing, names);
    var sorted := ListPartShards(listing);
    assert |multiset(sorted)| == |multiset(names)|;
    forall name | name in sorted ensures name in dir {
      assert name in multiset(sorted);
    }
  }

  lemma {:induction false} ReadPrefix(names: seq<string>, shards: seq<Bytes>, k: nat)
    requires |names| == |shards| && Distinct(names) && k <= |names|
    ensures forall name :: name in names[..k] ==> name in Write(names, shards)
    ensures ReadParts(names[..k], Write(names, shards)) == Concat(shards[..k])
  {
    if k > 0 {
      ReadPrefix(names, shards, k - 1);
      Written(names, shards, k - 1);
      assert names[..k][..k - 1] == names[..k - 1] && shards[..k][..k - 1] == shards[..k - 1];
    }
  }

  // --- part names as a layout ------------------------------------------------------------------------

  lemma PartNameShape(i: nat)
    ensures IsPartName(PartName(i))
  {
    assert ".car"[3] == 'r';
  }

  lemma NamesShape(n: nat)
    ensures Distinct(Names(n)) && forall name :: name in Names(n) ==> IsPartName(name)
  {
    forall i, j | 0 <= i < j < n ensures Names(n)[i] != Names(n)[j] {
      if Names(n)[i] == Names(n)[j] {
        NameDetermines(i, j);
      }
    }
    forall name | name in Names(n) ensures IsPartName(name) {
      var i :| 0 <= i < n && Names(n)[i] == name;
      PartNameShape(i);
    }
  }

  /** Up to the bound the sorted listing is the numeric order. */
  lemma ListedInOrder(n: nat, shards: seq<Bytes>, listing: seq<string>)
    requires 1 <= n <= 100000 && |shards| == n && ListsOnce(listing, Write(Names(n), shards))
    ensures ListPartShards(listing) == Names(n) && Distinct(Names(n))
  {
    NamesShape(n);
    Listed(Names(n), Write(Names(n), shards), listing);
    NamesSortedIff(n);
    LexIsTotal();
    SortedUnique(ListPartShards(listing), Names(n), LexLeq);
  }

  /** The round trip: with at most 100000 parts, splitting, writing, listing in any order the file system
      likes and joining in sorted-name order gives back every byte string. */
  lemma BytesRoundTrip(data: Bytes, n: nat, shards: seq<Bytes>, listing: seq<string>)
    requires 1 <= n <= 100000 && IsSplit(shards, data, n)
    requires ListsOnce(listing, Write(Names(n), shards))
    ensures ListPartShards(listing) == Names(n)
    ensures ReadParts(ListPartShards(listing), Write(Names(n), shards)) == data
  {
    ListedInOrder(n, shards, listing);
    ReadBack(Names(n), data, n, shards);
  }

  lemma ReadBack(names: seq<string>, data: Bytes, n: nat, shards: seq<Bytes>)
    requires n > 0 && IsSplit(shards, data, n) && |names| == n && Distinct(names)
    ensures forall name :: name in names ==> name in Write(names, shards)
    ensures ReadParts(names, Write(names, shards)) == data
  {
    ReadPrefix(names, shards, n);
    SplitIsLossless(shards, data, n);
    assert shards[..n] == shards && names[..n] == names;
  }

  // --- the bound is sharp ----------------------------------------------------------------------------

  /** One byte per part, all zero but one. */
  function Marked(n: nat, mark: nat): (data: Bytes)
    ensures |data| == n && forall i :: 0 <= i < n ==> data[i] == if i == mark then 1 else 0
  {
    seq(n, i => if i == mark then 1 else 0)
  }

  lemma MarkedShard(n: nat, mark: nat, shards: seq<Bytes>, i: nat)
    requires i < n && IsSplit(shards, Marked(n, mark), n)
    ensures shards[i] == [Marked(n, mark)[i]]
  {
    var data := Marked(n, mark);
    assert n / n == 1 && n % n == 0;
    assert IsShard(shards[i], data, n, i);
    assert i * 1 == i && (i + 1) * 1 == i + 1;
    assert data[i..i + 1] == [data[i]];
  }

  lemma {:induction false} ReadSingles(names: seq<string>, dir: ShardDir, k: nat)
    requires forall name :: name in names ==> name in dir && |dir[name]| == 1
    requires k < |names|
    ensures |ReadParts(names, dir)| == |names|
    ensures ReadParts(names, dir)[k] == dir[names[k]][0]
  {
    var front := names[..|names| - 1];
    assert names[|names| - 1] in names;
    if front != [] {
      assert forall name :: name in front ==> name in names;
      ReadSingles(front, dir, if k < |front| then k else 0);
    }
  }

  /** Pigeonhole. */
  lemma {:induction false} DistinctFits(xs: seq<string>, ys: seq<string>)
    requires Distinct(xs) && forall x :: x in xs ==> x in ys
    ensures |xs| <= |ys|
  {
    if xs != [] {
      assert xs[0] in ys;
      var k :| 0 <= k < |ys| && ys[k] == xs[0];
      var rest := ys[..k] + ys[k + 1..];
      forall x | x in xs[1..] ensures x in rest {
        assert x in xs;
        var m :| 0 <= m < |ys| && ys[m] == x;
        assert m != k;
        assert if m < k then rest[m] == x else rest[m - 1] == x;
      }
      DistinctFits(xs[1..], rest);
    }
  }

  /** When a later name sorts before name `p`, as all earlier ones do, name `p` is not `p`-th in sorted order. */
  lemma Misplaced(names: seq<string>, sorted: seq<string>, p: nat, q: nat)
    requires Distinct(names) && p < q < |names|
    requires |sorted| == |names| && SortedBy(sorted, LexLeq) && multiset(sorted) == multiset(names)
    requires LexLess(names[q], names[p]) && forall i :: 0 <= i < p ==> LexLess(names[i], names[p])
    ensures sorted[p] != names[p]
  {
    if sorted[p] == names[p] {
      var early := names[..p] + [names[q]];
      forall x | x in early ensures x in sorted[..p] {
        assert x in multiset(names);
        assert x in multiset(sorted);
        var k :| 0 <= k < |sorted| && sorted[k] == x;
        assert LexLess(x, sorted[p]);
        LexTrichotomy(x, sorted[p]);
        assert k < p;
        assert sorted[..p][k] == x;
      }
      DistinctFits(early, sorted[..p]);
    }
  }

  lemma ReadsMisplaced(names: seq<string>, shards: seq<Bytes>, sorted: seq<string>, n: nat, p: nat)
    requires n > 0 && |names| == n && Distinct(names) && IsSplit(shards, Marked(n, p), n) && p < n
    requires |sorted| == n && forall name :: name in sorted ==> name in Write(names, shards)
    requires sorted[p] != names[p]
    ensures ReadParts(sorted, Write(names, shards)) != Marked(n, p)
  {
    var dir := Write(names, shards);
    forall name | name in sorted ensures |dir[name]| == 1 && (name != names[p] ==> dir[name] == [0]) {
      var i :| 0 <= i < n && name == names[i];
      Written(names, shards, i);
      MarkedShard(n, p, shards, i);
    }
    ReadSingles(sorted, dir, p);
    assert sorted[p] in sorted;
  }

  /** Beyond 100000 parts the round trip fails for some data, whatever order the directory is listed in. */
  lemma BoundIsSharp(n: nat, shards: seq<Bytes>, listing: seq<string>)
    requires n > 100000 && IsSplit(shards, Marked(n, 10001), n)
    requires ListsOnce(listing, Write(Names(n), shards))
    ensures forall name :: name in ListPartShards(listing) ==> name in Write(Names(n), shards)
    ensures ReadParts(ListPartShards(listing), Write(Names(n), shards)) != Marked(n, 10001)
  {
    NamesShape(n);
    Listed(Names(n), Write(Names(n), shards), listing);
    SixDigitsSortEarly();
    forall i | 0 <= i < 10001 ensures LexLess(Names(n)[i], Names(n)[10001]) {
      NamesAscend(i, 10001);
    }
    Misplaced(Names(n), ListPartShards(listing), 10001, 100000);
    ReadsMisplaced(Names(n), shards, ListPartShards(listing), n, 10001);
  }
}
