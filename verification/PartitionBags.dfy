/** Round-robin file bags and their shard trees (data/input/structure/plant/partition_layout.py), and the
    choice between bags and byte shards (data/input/structure/plant/ray_io_utils.py). */
module PartitionBags {
  import opened DirWalk
  import opened Numerals
  import opened Partition
  import opened PartitionLayout
  import opened Residue
  import opened Sorting
  import opened Wrappers

  /** How many of the first `i` cards go to bag `b` of `n`. */
  function BagSize(i: nat, n: nat, b: nat): nat
    requires n > 0
  {
    if b < i % n then i / n + 1 else i / n
  }

  /** Bag `b` holds cards `b`, `b + n`, `b + 2n`, ... of the first `i`. */
  ghost predicate IsDealt<T>(bags: seq<seq<T>>, cards: seq<T>, n: nat)
    requires n > 0
  {
    && |bags| == n
    && (forall b :: 0 <= b < n ==> |bags[b]| == BagSize(|cards|, n, b))
    && (forall b, k :: 0 <= b < n && 0 <= k < |bags[b]| ==> CardAt(cards, n, b, k, bags[b][k]))
  }

  ghost predicate CardAt<T>(cards: seq<T>, n: nat, b: nat, k: nat, card: T) {
    k * n + b < |cards| && cards[k * n + b] == card
  }

  lemma NextCard(i: nat, n: nat)
    requires n > 0
    ensures i / n * n + i % n == i
    ensures if i % n + 1 < n then (i + 1) / n == i / n && (i + 1) % n == i % n + 1
            else (i + 1) / n == i / n + 1 && (i + 1) % n == 0
  {
    var q, r := i / n, i % n;
    assert i == q * n + r;
    if r + 1 < n {
      DivModUnique(q, r + 1, n);
      assert q * n + (r + 1) == i + 1;
    } else {
      DivModUnique(q + 1, 0, n);
      assert (q + 1) * n + 0 == i + 1;
    }
  }

  lemma Dealt1<T>(bags: seq<seq<T>>, cards: seq<T>, n: nat, card: T)
    requires n > 0 && IsDealt(bags, cards, n)
    ensures var b := |cards| % n; IsDealt(bags[b := bags[b] + [card]], cards + [card], n)
  {
    var i := |cards|;
    var b0 := i % n;
    NextCard(i, n);
    var bags', cards' := bags[b0 := bags[b0] + [card]], cards + [card];
    forall b | 0 <= b < n ensures |bags'[b]| == BagSize(i + 1, n, b) {
    }
    forall b, k | 0 <= b < n && 0 <= k < |bags'[b]| ensures CardAt(cards', n, b, k, bags'[b][k]) {
      if b != b0 || k < |bags[b0]| {
        assert CardAt(cards, n, b, k, bags[b][k]);
      }
    }
  }

  method RoundRobin<T(==, !new)>(paths: seq<T>, n: int, leq: (T, T) -> bool) returns (r: Result<seq<seq<T>>>)
    ensures r.Ok? <==> n >= 1
    ensures r.Ok? ==> IsDealt(r.value, Sort(paths, leq), n)
  {
    if n < 1 {
      return Err("num_partitions must be >= 1");
    }
    var sorted := Sort(paths, leq);
    var none: seq<T> := [];
    var bags := seq(n, _ => none);
    for i := 0 to |sorted|
      invariant IsDealt(bags, sorted[..i], n)
    {
      Dealt1(bags, sorted[..i], n, sorted[i]);
      assert sorted[..i + 1] == sorted[..i] + [sorted[i]];
      bags := bags[i % n := bags[i % n] + [sorted[i]]];
    }
    assert sorted[..|sorted|] == sorted;
    return Ok(bags);
  }

  /** Card `i` lies at position `i / n` of bag `i % n`, and bag sizes differ by at most one. */
  lemma DealtPositions<T>(bags: seq<seq<T>>, cards: seq<T>, n: nat, i: nat)
    requires n > 0 && IsDealt(bags, cards, n) && i < |cards|
    ensures i / n < |bags[i % n]| && bags[i % n][i / n] == cards[i]
    ensures forall a, b :: 0 <= a < n && 0 <= b < n ==> |bags[a]| <= |bags[b]| + 1
  {
    QuotientFits(i, |cards|, n);
    NextCard(i, n);
    assert CardAt(cards, n, i % n, i / n, bags[i % n][i / n]);
  }

  lemma QuotientFits(i: nat, len: nat, n: nat)
    requires n > 0 && i < len
    ensures i / n < BagSize(len, n, i % n)
  {
    var q, m := i / n, len / n;
    assert i == q * n + i % n && len == m * n + len % n;
    assert (m + 1) * n == m * n + n;
    if q > m {
      MulMonotone(m + 1, q, n);
    }
  }

  /** Reading the bags in turn, one card each. */
  function Interleaved<T>(bags: seq<seq<T>>, len: nat): seq<T>
    requires |bags| > 0 && forall i :: 0 <= i < len ==> i / |bags| < |bags[i % |bags|]|
  {
    seq(len, i requires 0 <= i < len => bags[i % |bags|][i / |bags|])
  }

  /** Interleaving the bags gives back the sorted list. */
  lemma DealtInterleaves<T>(bags: seq<seq<T>>, cards: seq<T>, n: nat)
    requires n > 0 && IsDealt(bags, cards, n)
    ensures forall i :: 0 <= i < |cards| ==> i / n < |bags[i % n]|
    ensures Interleaved(bags, |cards|) == cards
  {
    forall i | 0 <= i < |cards| ensures i / n < |bags[i % n]| && bags[i % n][i / n] == cards[i] {
      DealtPositions(bags, cards, n, i);
    }
  }

  // --- shard trees -----------------------------------------------------------------------------------

  /** Files by path relative to the input root, as path components. */
  type Tree = map<Path, Bytes>

  const EMPTY_MARKER: Path := [".empty"]

  /** `write_shard_tree`: the bag's files, or the marker of an empty bag. */
  method WriteShardTree(bag: seq<Path>, files: Tree) returns (tree: Tree)
    requires forall p :: p in bag ==> p in files
    ensures tree == ShardTree(bag, files)
  {
    if bag == [] {
      return map[EMPTY_MARKER := []];
    }
    tree := map[];
    for i := 0 to |bag|
      invariant forall p :: p in tree <==> p in bag[..i]
      invariant forall p :: p in tree ==> p in files && tree[p] == files[p]
    {
      assert bag[..i + 1] == bag[..i] + [bag[i]];
      assert bag[i] in bag;
      tree := tree[bag[i] := files[bag[i]]];
    }
    assert bag[..|bag|] == bag;
    assert tree == ShardTree(bag, files);
  }

  function ShardTree(bag: seq<Path>, files: Tree): Tree
    requires forall p :: p in bag ==> p in files
  {
    if bag == [] then map[EMPTY_MARKER := []] else map p | p in bag :: files[p]
  }

  /** `p` is in the tree of shard `b`, markers aside. */
  ghost predicate InShard(trees: seq<Tree>, b: int, p: Path) {
    0 <= b < |trees| && p in trees[b] && p != EMPTY_MARKER
  }

  /** The shard trees hold the original files and nothing else, each file in one shard. */
  ghost predicate PartitionsFiles(trees: seq<Tree>, files: Tree) {
    && (forall p :: p in files ==> exists b :: InShard(trees, b, p))
    && (forall b, p :: InShard(trees, b, p) ==> p in files && trees[b][p] == files[p])
    && (forall b, c, p :: InShard(trees, b, p) && InShard(trees, c, p) ==> b == c)
  }

  ghost predicate AreShardTrees(trees: seq<Tree>, bags: seq<seq<Path>>, files: Tree) {
    && |trees| == |bags|
    && forall b :: 0 <= b < |bags| ==>
      (forall p :: p in bags[b] ==> p in files) && trees[b] == ShardTree(bags[b], files)
  }

  lemma CardInOneBag(bags: seq<seq<Path>>, cards: seq<Path>, n: nat, b: nat, k: nat, c: nat, l: nat)
    requires n > 0 && IsDealt(bags, cards, n) && Distinct(cards)
    requires b < n && c < n && k < |bags[b]| && l < |bags[c]| && bags[b][k] == bags[c][l]
    ensures b == c
  {
    assert CardAt(cards, n, b, k, bags[b][k]) && CardAt(cards, n, c, l, bags[c][l]);
    assert k * n + b == l * n + c;
    DivModUnique(k, b, n);
    DivModUnique(l, c, n);
  }

  /** The bag a card is dealt to. */
  lemma BagOf(bags: seq<seq<Path>>, cards: seq<Path>, n: nat, p: Path) returns (b: nat)
    requires n > 0 && IsDealt(bags, cards, n) && p in cards
    ensures b < |bags| && p in bags[b]
  {
    var i :| 0 <= i < |cards| && cards[i] == p;
    DealtPositions(bags, cards, n, i);
    b := i % n;
  }

  lemma BagsPartitionFiles(trees: seq<Tree>, bags: seq<seq<Path>>, cards: seq<Path>, n: nat, files: Tree)
    requires n > 0 && IsDealt(bags, cards, n) && Distinct(cards)
    requires (forall p :: p in cards <==> p in files) && EMPTY_MARKER !in files
    requires AreShardTrees(trees, bags, files)
    ensures PartitionsFiles(trees, files)
  {
    forall p | p in files ensures exists b :: InShard(trees, b, p) {
      var b := BagOf(bags, cards, n, p);
      assert InShard(trees, b, p);
    }
    forall b, c, p | InShard(trees, b, p) && InShard(trees, c, p) ensures b == c {
      assert p in bags[b] && p in bags[c];
      var k :| 0 <= k < |bags[b]| && bags[b][k] == p;
      var l :| 0 <= l < |bags[c]| && bags[c][l] == p;
      CardInOneBag(bags, cards, n, b, k, c, l);
    }
  }

  // --- what is collected -----------------------------------------------------------------------------

  /** The fetched input: one file, or a directory. */
  datatype Input = OneFile(bytes: Bytes) | Folder(children: seq<Child>)

  predicate HiddenName(name: string) {
    "." <= name
  }

  /** `name.startswith('.')` on the last component of a relative path. */
  predicate HiddenPath(rel: string) {
    HiddenName(Split(rel)[|Split(rel)| - 1])
  }

  /** No component of the path is hidden. */
  predicate Shown(p: Path) {
    forall i :: 0 <= i < |p| ==> !HiddenName(p[i])
  }

  /** `collect_input_files` of a directory: the walk with hidden directories pruned and hidden files passed over. */
  function Collected(root: seq<Child>): Listing {
    Walk([Frame([], root)], HiddenPath)
  }

  function TreeOf(files: Listing): Tree {
    if files == [] then map[] else TreeOf(files[..|files| - 1])[files[|files| - 1].0 := files[|files| - 1].1]
  }

  function PathsOf(files: Listing): (paths: seq<Path>)
    ensures |paths| == |files| && forall i :: 0 <= i < |files| ==> paths[i] == files[i].0
  {
    seq(|files|, i requires 0 <= i < |files| => files[i].0)
  }

  /** Every file of the input, and those that are collected. */
  ghost function AllFiles(root: seq<Child>): Tree {
    TreeOf(Walk([Frame([], root)], _ => false))
  }

  function VisibleFiles(root: seq<Child>): Tree {
    TreeOf(Collected(root))
  }

  lemma TreeOfSnoc(front: Listing, last: (Path, Bytes))
    ensures TreeOf(front + [last]) == TreeOf(front)[last.0 := last.1]
    ensures PathsOf(front + [last]) == PathsOf(front) + [last.0]
  {
    assert (front + [last])[..|front|] == front;
  }

  lemma {:induction false} TreeOfHas(files: Listing, p: Path, bytes: Bytes)
    requires OncePerPath(files)
    ensures p in TreeOf(files) && TreeOf(files)[p] == bytes <==> (p, bytes) in files
    ensures p in TreeOf(files) <==> p in PathsOf(files)
  {
    if files != [] {
      var front, last := files[..|files| - 1], files[|files| - 1];
      assert files == front + [last];
      TreeOfHas(front, p, bytes);
      TreeOfSnoc(front, last);
      NotBefore(files, bytes);
    }
  }

  /** The last path is not listed before. */
  lemma NotBefore(files: Listing, bytes: Bytes)
    requires OncePerPath(files) && files != []
    ensures (files[|files| - 1].0, bytes) !in files[..|files| - 1]
  {
    var front, last := files[..|files| - 1], files[|files| - 1];
    forall i | 0 <= i < |front| ensures front[i] != (last.0, bytes) {
      assert front[i] == files[i];
    }
  }

  /** A path of single components, as in a directory tree. */
  ghost predicate Components(p: Path) {
    forall i :: 0 <= i < |p| ==> '/' !in p[i]
  }

  lemma HiddenPrefix(p: Path, k: nat)
    requires Components(p) && 1 <= k <= |p|
    ensures HiddenPath(Join([] + p[..k])) <==> HiddenName(p[k - 1])
  {
    assert [] + p[..k] == p[..k];
    HiddenJoin(p[..k]);
  }

  lemma HiddenJoin(p: Path)
    requires Components(p) && p != []
    ensures HiddenPath(Join(p)) <==> HiddenName(p[|p| - 1])
  {
    SplitJoin(p);
  }

  /** A file is collected exactly when no component of its path is hidden. */
  lemma VisibleAre(root: seq<Child>, p: Path, bytes: Bytes)
    requires WellNamed(root)
    ensures p in VisibleFiles(root) && VisibleFiles(root)[p] == bytes <==> Lookup(root, p) == Some(bytes) && Shown(p)
  {
    WalkOnce(root, HiddenPath);
    TreeOfHas(Collected(root), p, bytes);
    WalkIsFilter(root, HiddenPath, p, bytes);
    if Lookup(root, p) == Some(bytes) {
      LookupNames(root, p);
      forall k | 1 <= k <= |p| ensures HiddenPath(Join([] + p[..k])) <==> HiddenName(p[k - 1]) {
        HiddenPrefix(p, k);
      }
      if Kept(root, [], p, bytes, HiddenPath) {
        forall i | 0 <= i < |p| ensures !HiddenName(p[i]) {
          assert !HiddenPath(Join([] + p[..i + 1]));
        }
      }
    }
  }

  lemma AllAre(root: seq<Child>, p: Path, bytes: Bytes)
    requires WellNamed(root)
    ensures p in AllFiles(root) && AllFiles(root)[p] == bytes <==> Lookup(root, p) == Some(bytes)
  {
    WalkOnce(root, _ => false);
    TreeOfHas(Walk([Frame([], root)], _ => false), p, bytes);
    WalkIsFilter(root, _ => false, p, bytes);
  }

  /** What is visible is there and shown. */
  lemma VisibleIsAll(root: seq<Child>, p: Path)
    requires WellNamed(root)
    ensures p in VisibleFiles(root) <==> p in AllFiles(root) && Shown(p)
    ensures p in VisibleFiles(root) ==> VisibleFiles(root)[p] == AllFiles(root)[p]
  {
    if p in VisibleFiles(root) {
      VisibleAre(root, p, VisibleFiles(root)[p]);
      AllAre(root, p, VisibleFiles(root)[p]);
    } else if p in AllFiles(root) && Shown(p) {
      AllAre(root, p, AllFiles(root)[p]);
      VisibleAre(root, p, AllFiles(root)[p]);
    }
  }

  lemma SameTrees(visible: Tree, all: Tree)
    requires forall p :: p in visible <==> p in all && Shown(p)
    requires forall p :: p in visible ==> visible[p] == all[p]
    ensures visible == all <==> forall p :: p in all ==> Shown(p)
  {
  }

  /** Nothing of the input is lost if and only if no file lies on a hidden path. */
  lemma NothingLostIff(root: seq<Child>)
    requires WellNamed(root)
    ensures VisibleFiles(root) == AllFiles(root) <==> forall p :: p in AllFiles(root) ==> Shown(p)
  {
    var visible, all := VisibleFiles(root), AllFiles(root);
    forall p ensures (p in visible <==> p in all && Shown(p)) && (p in visible ==> visible[p] == all[p]) {
      VisibleIsAll(root, p);
    }
    SameTrees(visible, all);
  }

  /** An input that does lose a file: `.env` beside two tables. */
  lemma DotEnvIsLost(env: Bytes, a: Bytes, b: Bytes)
    ensures var root := [Child(".env", File(env)), Child("a.csv", File(a)), Child("b.csv", File(b))];
      && WellNamed(root)
      && [".env"] in AllFiles(root) && [".env"] !in VisibleFiles(root)
      && ["a.csv"] in VisibleFiles(root) && ["b.csv"] in VisibleFiles(root)
  {
    var root := [Child(".env", File(env)), Child("a.csv", File(a)), Child("b.csv", File(b))];
    assert ".env"[0] == '.' && "a.csv"[0] == 'a' && "b.csv"[0] == 'b';
    FindIff(root, 0);
    FindIff(root, 1);
    FindIff(root, 2);
    assert Lookup(root, [".env"]) == Some(env) && Lookup(root, ["a.csv"]) == Some(a)
      && Lookup(root, ["b.csv"]) == Some(b);
    assert HiddenName([".env"][0]);
    AllAre(root, [".env"], env);
    if [".env"] in VisibleFiles(root) {
      VisibleAre(root, [".env"], VisibleFiles(root)[[".env"]]);
    }
    VisibleAre(root, ["a.csv"], a);
    VisibleAre(root, ["b.csv"], b);
  }

  // --- ingress ---------------------------------------------------------------------------------------

  datatype Parts = ByteParts(shards: seq<Bytes>) | TreeParts(trees: seq<Tree>)

  /** One file, cut into shards that join to it. */
  ghost predicate Cut(parts: Parts, bytes: Bytes, n: int) {
    parts.ByteParts? && n > 0 && IsSplit(parts.shards, bytes, n) && Concat(parts.shards) == bytes
  }

  /** The paths of these files in order. */
  ghost predicate InOrder(sorted: seq<Path>, files: Tree, leq: (Path, Path) -> bool) {
    Distinct(sorted) && SortedBy(sorted, leq) && forall p :: p in sorted <==> p in files
  }

  /** `p` is one of every `n` paths, counted from place `b`. */
  ghost predicate OfShard(sorted: seq<Path>, n: nat, b: int, p: Path)
    requires n > 0
  {
    exists i :: 0 <= i < |sorted| && i % n == b && sorted[i] == p
  }

  /** Shard `b` holds the files at places `b`, `b + n`, `b + 2n`, ... unchanged, or one empty file named `.empty` when
      there are none. */
  ghost predicate ShardIs(tree: Tree, sorted: seq<Path>, files: Tree, n: nat, b: int)
    requires n > 0
  {
    if |sorted| <= b then tree == map[[".empty"] := []]
    else forall p :: (p in tree <==> OfShard(sorted, n, b, p)) && (p in tree ==> p in files && tree[p] == files[p])
  }

  ghost predicate SharedOut(trees: seq<Tree>, sorted: seq<Path>, files: Tree, n: nat)
    requires n > 0
  {
    |trees| == n && forall b :: 0 <= b < n ==> ShardIs(trees[b], sorted, files, n, b)
  }

  lemma PlaceOf(cards: seq<Path>, n: nat, b: nat, k: nat, p: Path)
    requires b < n && CardAt(cards, n, b, k, p)
    ensures OfShard(cards, n, b, p)
  {
    DivModUnique(k, b, n);
    var i := k * n + b;
    assert i % n == b && cards[i] == p;
  }

  lemma InBagPlace(bags: seq<seq<Path>>, cards: seq<Path>, n: nat, b: nat, p: Path)
    requires n > 0 && IsDealt(bags, cards, n) && b < n && p in bags[b]
    ensures OfShard(cards, n, b, p)
  {
    var k :| 0 <= k < |bags[b]| && bags[b][k] == p;
    PlaceOf(cards, n, b, k, p);
  }

  lemma CardInBag(bags: seq<seq<Path>>, cards: seq<Path>, n: nat, i: nat, b: nat)
    requires n > 0 && IsDealt(bags, cards, n) && i < |cards| && b == i % n
    ensures b < |bags| && cards[i] in bags[b]
  {
    DealtPositions(bags, cards, n, i);
  }

  lemma PlaceInBag(bags: seq<seq<Path>>, cards: seq<Path>, n: nat, b: nat, p: Path)
    requires n > 0 && IsDealt(bags, cards, n) && b < n && OfShard(cards, n, b, p)
    ensures p in bags[b]
  {
    var i :| 0 <= i < |cards| && i % n == b && cards[i] == p;
    CardInBag(bags, cards, n, i, b);
  }

  lemma BagEmptyIff(i: nat, n: nat, b: nat)
    requires n > 0 && b < n
    ensures BagSize(i, n, b) == 0 <==> i <= b
  {
    NextCard(i, n);
    if i / n == 0 {
      assert i / n * n == 0;
    } else {
      MulMonotone(1, i / n, n);
    }
  }

  lemma DealtShards(trees: seq<Tree>, bags: seq<seq<Path>>, cards: seq<Path>, n: nat, files: Tree)
    requires n > 0 && IsDealt(bags, cards, n) && AreShardTrees(trees, bags, files)
    ensures SharedOut(trees, cards, files, n)
  {
    forall b | 0 <= b < n ensures ShardIs(trees[b], cards, files, n, b) {
      BagEmptyIff(|cards|, n, b);
      forall p ensures p in bags[b] <==> OfShard(cards, n, b, p) {
        if p in bags[b] { InBagPlace(bags, cards, n, b, p); }
        if OfShard(cards, n, b, p) { PlaceInBag(bags, cards, n, b, p); }
      }
    }
  }

  /** The parts hold exactly these files: one file is cut, any other number is dealt out in order. */
  ghost predicate HoldsExactly(parts: Parts, files: Tree, n: int, leq: (Path, Path) -> bool) {
    match parts
    case ByteParts(_) => exists p :: files.Keys == {p} && Cut(parts, files[p], n)
    case TreeParts(trees) =>
      && |files| != 1 && PartitionsFiles(trees, files)
      && n > 0 && exists sorted :: InOrder(sorted, files, leq) && SharedOut(trees, sorted, files, n)
  }

  /** `run_partition_ingress` after the input is fetched, with `leq` the order of paths: the layout holds exactly the
      files no component of whose path is hidden. */
  method PartitionIngress(input: Input, n: int, leq: (Path, Path) -> bool) returns (r: Result<Parts>)
    requires TotalOrder(leq)
    requires input.Folder? ==> WellNamed(input.children)
    ensures r.Ok? <==> n >= 2
    ensures r.Ok? && input.OneFile? ==> Cut(r.value, input.bytes, n)
    ensures r.Ok? && input.Folder? ==> HoldsExactly(r.value, VisibleFiles(input.children), n, leq)
  {
    if n < 2 {
      return Err("partition_ingress requires num_partitions >= 2");
    }
    match input
    case OneFile(bytes) =>
      var split := SplitFileBytes(bytes, n);
      SplitIsLossless(split.value, bytes, n);
      return Ok(ByteParts(split.value));
    case Folder(children) =>
      var listing := WalkLoop(children, HiddenPath);
      WalkOnce(children, HiddenPath);
      CollectedPaths(children);
      if |listing| == 1 {
        var split := SplitFileBytes(listing[0].1, n);
        SplitIsLossless(split.value, listing[0].1, n);
        OneCollected(children);
        return Ok(ByteParts(split.value));
      }
      var trees, sorted := DealOut(TreeOf(listing), PathsOf(listing), n, leq);
      return Ok(TreeParts(trees));
  }

  /** The collected paths are those of the visible files, each once, and never the marker. */
  lemma CollectedPaths(root: seq<Child>)
    requires WellNamed(root)
    ensures var paths, files := PathsOf(Collected(root)), VisibleFiles(root);
      && Distinct(paths) && (forall p :: p in paths <==> p in files) && |files| == |paths|
      && EMPTY_MARKER !in files
  {
    var listing, files := Collected(root), VisibleFiles(root);
    var paths := PathsOf(listing);
    WalkOnce(root, HiddenPath);
    forall p ensures p in paths <==> p in files {
      TreeOfHas(listing, p, []);
    }
    DistinctCount(paths, files.Keys);
    if EMPTY_MARKER in files {
      VisibleAre(root, EMPTY_MARKER, files[EMPTY_MARKER]);
      assert HiddenName(EMPTY_MARKER[0]);
    }
  }

  lemma {:induction false} DistinctCount<T(!new)>(xs: seq<T>, s: set<T>)
    requires Distinct(xs) && forall x :: x in xs <==> x in s
    ensures |xs| == |s|
  {
    if xs != [] {
      var last := xs[|xs| - 1];
      var front := xs[..|xs| - 1];
      assert xs == front + [last];
      forall x ensures x in front <==> x in s - {last} {
      }
      DistinctCount(front, s - {last});
    }
  }

  lemma OneCollected(root: seq<Child>)
    requires WellNamed(root) && |Collected(root)| == 1
    ensures VisibleFiles(root).Keys == {Collected(root)[0].0}
    ensures VisibleFiles(root)[Collected(root)[0].0] == Collected(root)[0].1
  {
    assert Collected(root)[..0] == [];
  }

  /** The files dealt into bags and written as shard trees. */
  method DealOut(files: Tree, paths: seq<Path>, n: nat, leq: (Path, Path) -> bool)
    returns (trees: seq<Tree>, ghost sorted: seq<Path>)
    requires TotalOrder(leq) && n > 0
    requires Distinct(paths) && (forall p :: p in paths <==> p in files) && EMPTY_MARKER !in files
    ensures PartitionsFiles(trees, files) && InOrder(sorted, files, leq) && SharedOut(trees, sorted, files, n)
  {
    var dealt := RoundRobin(paths, n, leq);
    var bags := dealt.value;
    sorted := Sort(paths, leq);
    SortedDistinct(paths, leq);
    SortSorts(paths, leq);
    trees := [];
    for i := 0 to n
      invariant |trees| == i
      invariant forall b :: 0 <= b < i ==>
        (forall p :: p in bags[b] ==> p in files) && trees[b] == ShardTree(bags[b], files)
    {
      BagOfCards(bags, sorted, n, i);
      var tree := WriteShardTree(bags[i], files);
      trees := trees + [tree];
    }
    BagsPartitionFiles(trees, bags, sorted, n, files);
    DealtShards(trees, bags, sorted, n, files);
  }

  lemma BagOfCards(bags: seq<seq<Path>>, cards: seq<Path>, n: nat, b: nat)
    requires n > 0 && IsDealt(bags, cards, n) && b < n
    ensures forall p :: p in bags[b] ==> p in cards
  {
    forall p | p in bags[b] ensures p in cards {
      var k :| 0 <= k < |bags[b]| && bags[b][k] == p;
      assert CardAt(cards, n, b, k, p);
    }
  }

  lemma {:induction false} OnceMeansDistinct<T(!new)>(xs: seq<T>)
    requires forall x :: multiset(xs)[x] <= 1
    ensures Distinct(xs)
  {
    if xs != [] {
      assert xs == [xs[0]] + xs[1..];
      assert multiset(xs) == multiset{xs[0]} + multiset(xs[1..]);
      forall x ensures multiset(xs[1..])[x] <= 1 {
        assert multiset(xs)[x] <= 1;
      }
      assert multiset(xs)[xs[0]] <= 1;
      assert xs[0] !in multiset(xs[1..]);
      OnceMeansDistinct(xs[1..]);
    }
  }

  lemma SortedDistinct<T(!new)>(xs: seq<T>, leq: (T, T) -> bool)
    requires TotalOrder(leq) && Distinct(xs)
    ensures Distinct(Sort(xs, leq))
    ensures forall x :: x in Sort(xs, leq) <==> x in xs
  {
    SortSorts(xs, leq);
    var ys := Sort(xs, leq);
    forall x ensures multiset(ys)[x] <= 1 && (x in ys <==> x in xs) {
      OnceInDistinct(xs, x);
      assert x in multiset(ys) <==> x in multiset(xs);
    }
    OnceMeansDistinct(ys);
  }
}
