/** The pruned directory walk of `put_tree` (cats/network/cas/manifest.py) and the apply-residue filter
    (cats/network/packaging.py). */
module DirWalk {
  import opened Text
  import opened Wrappers

  type Bytes = seq<Byte>

  datatype Node = File(bytes: Bytes) | Dir(children: seq<Child>)
  datatype Child = Child(name: string, node: Node)

  /** A path as its components, the root being the empty path. */
  type Path = seq<string>

  function Join(p: Path): string {
    if p == [] then [] else if |p| == 1 then p[0] else p[0] + "/" + Join(p[1..])
  }

  /** `ignore(rel_posix)`. */
  type Ignore = string -> bool

  ghost predicate GoodName(name: string) {
    name != [] && '/' !in name && name != "." && name != ".."
  }

  /** A directory lists each name once, and names are single path components. */
  ghost predicate WellNamed(children: seq<Child>)
    decreases children
  {
    && (forall i :: 0 <= i < |children| ==> GoodName(children[i].name))
    && (forall i, j :: 0 <= i < j < |children| ==> children[i].name != children[j].name)
    && (forall i :: 0 <= i < |children| && children[i].node.Dir? ==> WellNamed(children[i].node.children))
  }

  // --- the reference: looking a path up --------------------------------------------------------------

  function Find(children: seq<Child>, name: string): Option<Node> {
    if children == [] then None
    else if children[0].name == name then Some(children[0].node)
    else Find(children[1..], name)
  }

  function Lookup(children: seq<Child>, p: Path): Option<Bytes>
    decreases |p|
  {
    if p == [] then None
    else match Find(children, p[0])
      case None => None
      case Some(File(bytes)) => if |p| == 1 then Some(bytes) else None
      case Some(Dir(inner)) => Lookup(inner, p[1..])
  }

  /** The file at `p` below `base`, none of whose path prefixes, itself included, is ignored. */
  ghost predicate Kept(children: seq<Child>, base: Path, p: Path, bytes: Bytes, ignore: Ignore) {
    && Lookup(children, p) == Some(bytes)
    && forall k :: 1 <= k <= |p| ==> !ignore(Join(base + p[..k]))
  }

  // --- the walk --------------------------------------------------------------------------------------

  /** A directory still to be visited. */
  datatype Frame = Frame(path: Path, children: seq<Child>)

  type Listing = seq<(Path, Bytes)>

  function DirFiles(path: Path, children: seq<Child>, ignore: Ignore): Listing {
    if children == [] then []
    else
      var c := children[0];
      (if c.node.File? && !ignore(Join(path + [c.name])) then [(path + [c.name], c.node.bytes)] else [])
      + DirFiles(path, children[1..], ignore)
  }

  /** The subdirectories left after `dirnames` is pruned. */
  function SubFrames(path: Path, children: seq<Child>, ignore: Ignore): seq<Frame> {
    if children == [] then []
    else
      var c := children[0];
      (if c.node.Dir? && !ignore(Join(path + [c.name])) then [Frame(path + [c.name], c.node.children)] else [])
      + SubFrames(path, children[1..], ignore)
  }

  function NodeSize(n: Node): nat {
    match n
    case File(_) => 1
    case Dir(children) => 1 + Size(children)
  }

  function Size(children: seq<Child>): nat {
    if children == [] then 0 else NodeSize(children[0].node) + Size(children[1..])
  }

  function StackSize(stack: seq<Frame>): nat {
    if stack == [] then 0 else 1 + Size(stack[0].children) + StackSize(stack[1..])
  }

  lemma {:induction false} StackSizeConcat(a: seq<Frame>, b: seq<Frame>)
    ensures StackSize(a + b) == StackSize(a) + StackSize(b)
  {
    if a == [] {
      assert a + b == b;
    } else {
      assert (a + b)[1..] == a[1..] + b;
      StackSizeConcat(a[1..], b);
    }
  }

  lemma {:induction false} SubFramesSmaller(path: Path, children: seq<Child>, ignore: Ignore)
    ensures StackSize(SubFrames(path, children, ignore)) <= Size(children)
  {
    if children != [] {
      var c := children[0];
      SubFramesSmaller(path, children[1..], ignore);
      var rest := SubFrames(path, children[1..], ignore);
      if c.node.Dir? && !ignore(Join(path + [c.name])) {
        var f := Frame(path + [c.name], c.node.children);
        StackSizeConcat([f], rest);
        assert StackSize([f]) == 1 + Size(c.node.children);
      } else {
        assert [] + rest == rest;
      }
    }
  }

  /** `os.walk`, top down: a directory's own files, then its remaining subdirectories depth first. */
  function Walk(stack: seq<Frame>, ignore: Ignore): Listing
    decreases StackSize(stack)
  {
    if stack == [] then []
    else
      var f := stack[0];
      var subs := SubFrames(f.path, f.children, ignore);
      SubFramesSmaller(f.path, f.children, ignore);
      StackSizeConcat(subs, stack[1..]);
      DirFiles(f.path, f.children, ignore) + Walk(subs + stack[1..], ignore)
  }

  /** The loop of `put_tree`, up to what is done with each file. */
  method WalkLoop(root: seq<Child>, ignore: Ignore) returns (files: Listing)
    ensures files == Walk([Frame([], root)], ignore)
  {
    files := [];
    var stack := [Frame([], root)];
    while stack != []
      invariant files + Walk(stack, ignore) == Walk([Frame([], root)], ignore)
      decreases StackSize(stack)
    {
      var f := stack[0];
      var subs := PruneLoop(f, ignore);
      SubFramesSmaller(f.path, f.children, ignore);
      StackSizeConcat(subs, stack[1..]);
      var here := FilesLoop(f, ignore);
      files := files + here;
      stack := subs + stack[1..];
    }
  }

  /** One turn of each loop over a directory's children. */
  lemma ChildStep(f: Frame, i: nat, ignore: Ignore, subs: seq<Frame>, here: Listing)
    requires i < |f.children|
    ensures var c, rest := f.children[i], f.children[i + 1..];
      && subs + SubFrames(f.path, f.children[i..], ignore)
         == subs + (if c.node.Dir? && !ignore(Join(f.path + [c.name]))
                    then [Frame(f.path + [c.name], c.node.children)] else [])
            + SubFrames(f.path, rest, ignore)
      && here + DirFiles(f.path, f.children[i..], ignore)
         == here + (if c.node.File? && !ignore(Join(f.path + [c.name])) then [(f.path + [c.name], c.node.bytes)]
                    else [])
            + DirFiles(f.path, rest, ignore)
  {
    assert f.children[i..][1..] == f.children[i + 1..] && f.children[i..][0] == f.children[i];
  }

  /** `dirnames[:] = [...]`. */
  method PruneLoop(f: Frame, ignore: Ignore) returns (subs: seq<Frame>)
    ensures subs == SubFrames(f.path, f.children, ignore)
  {
    subs := [];
    assert f.children[0..] == f.children
      && [] + SubFrames(f.path, f.children, ignore) == SubFrames(f.path, f.children, ignore);
    for i := 0 to |f.children|
      invariant SubFrames(f.path, f.children, ignore) == subs + SubFrames(f.path, f.children[i..], ignore)
    {
      var c := f.children[i];
      ChildStep(f, i, ignore, subs, []);
      if c.node.Dir? && !ignore(Join(f.path + [c.name])) {
        subs := subs + [Frame(f.path + [c.name], c.node.children)];
      } else {
        assert subs + [] == subs;
      }
    }
    assert subs + [] == subs;
  }

  method FilesLoop(f: Frame, ignore: Ignore) returns (here: Listing)
    ensures here == DirFiles(f.path, f.children, ignore)
  {
    here := [];
    assert f.children[0..] == f.children
      && [] + DirFiles(f.path, f.children, ignore) == DirFiles(f.path, f.children, ignore);
    for i := 0 to |f.children|
      invariant DirFiles(f.path, f.children, ignore) == here + DirFiles(f.path, f.children[i..], ignore)
    {
      var c := f.children[i];
      ChildStep(f, i, ignore, [], here);
      if c.node.File? && !ignore(Join(f.path + [c.name])) {
        here := here + [(f.path + [c.name], c.node.bytes)];
      } else {
        assert here + [] == here;
      }
    }
    assert here + [] == here;
  }

  // --- pruning during the walk is filtering by prefix ------------------------------------------------

  lemma {:induction false} FindIff(children: seq<Child>, i: nat)
    requires i < |children|
    requires forall k, l :: 0 <= k < l < |children| ==> children[k].name != children[l].name
    ensures Find(children, children[i].name) == Some(children[i].node)
  {
    if i > 0 {
      FindIff(children[1..], i - 1);
    }
  }

  lemma {:induction false} FindGives(children: seq<Child>, name: string)
    requires Find(children, name).Some?
    ensures exists i :: 0 <= i < |children| && children[i] == Child(name, Find(children, name).value)
  {
    if children[0].name == name {
      assert children[0] == Child(name, Find(children, name).value);
    } else {
      FindGives(children[1..], name);
      var i :| 0 <= i < |children[1..]| && children[1..][i] == Child(name, Find(children, name).value);
      assert children[i + 1] == Child(name, Find(children, name).value);
    }
  }

  lemma {:induction false} DirFilesAre(path: Path, children: seq<Child>, ignore: Ignore, q: Path, bytes: Bytes)
    ensures (q, bytes) in DirFiles(path, children, ignore) <==>
      exists i :: 0 <= i < |children| && children[i].node == File(bytes) && q == path + [children[i].name]
        && !ignore(Join(path + [children[i].name]))
  {
    if children != [] {
      var rest := children[1..];
      DirFilesAre(path, rest, ignore, q, bytes);
      assert children == [children[0]] + rest;
      if (q, bytes) in DirFiles(path, rest, ignore) {
        var i :| 0 <= i < |rest| && rest[i].node == File(bytes) && q == path + [rest[i].name]
          && !ignore(Join(path + [rest[i].name]));
        assert children[i + 1] == rest[i];
      }
    }
  }

  lemma {:induction false} SubFramesAre(path: Path, children: seq<Child>, ignore: Ignore, g: Frame)
    ensures g in SubFrames(path, children, ignore) <==>
      exists i :: 0 <= i < |children| && children[i].node == Dir(g.children) && g.path == path + [children[i].name]
        && !ignore(Join(path + [children[i].name]))
  {
    if children != [] {
      var rest := children[1..];
      SubFramesAre(path, rest, ignore, g);
      assert children == [children[0]] + rest;
      if g in SubFrames(path, rest, ignore) {
        var i :| 0 <= i < |rest| && rest[i].node == Dir(g.children) && g.path == path + [rest[i].name]
          && !ignore(Join(path + [rest[i].name]));
        assert children[i + 1] == rest[i];
      }
    }
  }

  /** Some frame of the stack keeps the file at `q`. */
  ghost predicate StackKeeps(stack: seq<Frame>, q: Path, bytes: Bytes, ignore: Ignore) {
    exists f, p :: f in stack && q == f.path + p && Kept(f.children, f.path, p, bytes, ignore)
  }

  ghost predicate StackWellNamed(stack: seq<Frame>) {
    forall f :: f in stack ==> WellNamed(f.children)
  }

  /** One path component: the file itself, or a kept subdirectory and the rest of the path. */
  lemma KeptStep(f: Frame, q: Path, bytes: Bytes, ignore: Ignore)
    requires WellNamed(f.children)
    ensures (exists p :: q == f.path + p && Kept(f.children, f.path, p, bytes, ignore)) <==>
      (q, bytes) in DirFiles(f.path, f.children, ignore)
        || StackKeeps(SubFrames(f.path, f.children, ignore), q, bytes, ignore)
  {
    DirFilesAre(f.path, f.children, ignore, q, bytes);
    if p :| q == f.path + p && Kept(f.children, f.path, p, bytes, ignore) {
      KeptDescends(f, p, bytes, ignore);
    }
    if (q, bytes) in DirFiles(f.path, f.children, ignore) {
      var i :| 0 <= i < |f.children| && f.children[i].node == File(bytes) && q == f.path + [f.children[i].name]
        && !ignore(Join(f.path + [f.children[i].name]));
      FindIff(f.children, i);
      var p := [f.children[i].name];
      assert p[..1] == p;
      assert Kept(f.children, f.path, p, bytes, ignore);
    }
    if StackKeeps(SubFrames(f.path, f.children, ignore), q, bytes, ignore) {
      var g, p :| g in SubFrames(f.path, f.children, ignore) && q == g.path + p
        && Kept(g.children, g.path, p, bytes, ignore);
      KeptAscends(f, g, p, bytes, ignore);
    }
  }

  /** The components of a file's path are names of the tree. */
  lemma {:induction false} LookupNames(children: seq<Child>, p: Path)
    requires WellNamed(children) && Lookup(children, p).Some?
    ensures p != [] && forall i :: 0 <= i < |p| ==> GoodName(p[i])
    decreases |p|
  {
    FindGives(children, p[0]);
    var i :| 0 <= i < |children| && children[i] == Child(p[0], Find(children, p[0]).value);
    if |p| > 1 && children[i].node.Dir? {
      LookupNames(children[i].node.children, p[1..]);
      assert forall j :: 0 < j < |p| ==> p[j] == p[1..][j - 1];
    }
  }

  lemma KeptDescends(f: Frame, p: Path, bytes: Bytes, ignore: Ignore)
    requires WellNamed(f.children) && Kept(f.children, f.path, p, bytes, ignore)
    ensures (f.path + p, bytes) in DirFiles(f.path, f.children, ignore)
      || StackKeeps(SubFrames(f.path, f.children, ignore), f.path + p, bytes, ignore)
  {
    var name := p[0];
    FindGives(f.children, name);
    var node := Find(f.children, name).value;
    assert p[..1] == [name];
    assert !ignore(Join(f.path + p[..1]));
    var i :| 0 <= i < |f.children| && f.children[i] == Child(name, node);
    if node.File? {
      assert p == [name];
      DirFilesAre(f.path, f.children, ignore, f.path + p, bytes);
    } else {
      var g := Frame(f.path + [name], node.children);
      SubFramesAre(f.path, f.children, ignore, g);
      forall k | 1 <= k <= |p[1..]| ensures !ignore(Join(g.path + p[1..][..k])) {
        assert g.path + p[1..][..k] == f.path + p[..k + 1];
      }
      assert g.path + p[1..] == f.path + p;
      assert Kept(g.children, g.path, p[1..], bytes, ignore);
    }
  }

  lemma PrefixBelow(base: Path, name: string, p: Path, k: nat)
    requires 1 <= k <= |p| + 1
    ensures base + ([name] + p)[..k] == base + [name] + p[..k - 1]
    ensures k == 1 ==> base + ([name] + p)[..k] == base + [name]
  {
    assert ([name] + p)[..k] == [name] + p[..k - 1];
    assert k == 1 ==> p[..k - 1] == [];
  }

  lemma KeptAscends(f: Frame, g: Frame, p: Path, bytes: Bytes, ignore: Ignore)
    requires WellNamed(f.children) && g in SubFrames(f.path, f.children, ignore)
      && Kept(g.children, g.path, p, bytes, ignore)
    ensures exists p' :: g.path + p == f.path + p' && Kept(f.children, f.path, p', bytes, ignore)
  {
    SubFramesAre(f.path, f.children, ignore, g);
    var i :| 0 <= i < |f.children| && f.children[i].node == Dir(g.children) && g.path == f.path + [f.children[i].name]
      && !ignore(Join(f.path + [f.children[i].name]));
    FindIff(f.children, i);
    var p' := [f.children[i].name] + p;
    assert p'[1..] == p;
    forall k | 1 <= k <= |p'| ensures !ignore(Join(f.path + p'[..k])) {
      PrefixBelow(f.path, f.children[i].name, p, k);
    }
    assert g.path + p == f.path + p';
    assert Kept(f.children, f.path, p', bytes, ignore);
  }

  lemma {:induction false} WalkIsStackFilter(stack: seq<Frame>, ignore: Ignore, q: Path, bytes: Bytes)
    requires StackWellNamed(stack)
    ensures (q, bytes) in Walk(stack, ignore) <==> StackKeeps(stack, q, bytes, ignore)
    decreases StackSize(stack)
  {
    if stack != [] {
      var f, rest := stack[0], stack[1..];
      var subs := SubFrames(f.path, f.children, ignore);
      SubFramesSmaller(f.path, f.children, ignore);
      StackSizeConcat(subs, rest);
      NextWellNamed(f, rest, ignore);
      WalkIsStackFilter(subs + rest, ignore, q, bytes);
      FrameKeeps(f, q, bytes, ignore);
      assert stack == [f] + rest;
      StackKeepsConcat([f], rest, q, bytes, ignore);
      StackKeepsConcat(subs, rest, q, bytes, ignore);
    }
  }

  lemma NextWellNamed(f: Frame, rest: seq<Frame>, ignore: Ignore)
    requires WellNamed(f.children) && StackWellNamed(rest)
    ensures StackWellNamed(SubFrames(f.path, f.children, ignore) + rest)
  {
    forall g: Frame | g in SubFrames(f.path, f.children, ignore) + rest ensures WellNamed(g.children) {
      if g in SubFrames(f.path, f.children, ignore) {
        SubFramesAre(f.path, f.children, ignore, g);
      }
    }
  }

  /** One directory of the stack: its own files, and what its subdirectories keep. */
  lemma FrameKeeps(f: Frame, q: Path, bytes: Bytes, ignore: Ignore)
    requires WellNamed(f.children)
    ensures StackKeeps([f], q, bytes, ignore) <==>
      (q, bytes) in DirFiles(f.path, f.children, ignore)
      || StackKeeps(SubFrames(f.path, f.children, ignore), q, bytes, ignore)
  {
    KeptStep(f, q, bytes, ignore);
    assert f in [f];
  }

  lemma StackKeepsConcat(a: seq<Frame>, b: seq<Frame>, q: Path, bytes: Bytes, ignore: Ignore)
    ensures StackKeeps(a + b, q, bytes, ignore) <==> StackKeeps(a, q, bytes, ignore) || StackKeeps(b, q, bytes, ignore)
  {
  }

  /** The walk lists exactly the files none of whose path prefixes is ignored. */
  lemma WalkIsFilter(root: seq<Child>, ignore: Ignore, q: Path, bytes: Bytes)
    requires WellNamed(root)
    ensures (q, bytes) in Walk([Frame([], root)], ignore) <==> Kept(root, [], q, bytes, ignore)
  {
    WalkIsStackFilter([Frame([], root)], ignore, q, bytes);
    if Kept(root, [], q, bytes, ignore) {
      assert [] + q == q;
      assert Frame([], root) in [Frame([], root)];
    }
    if StackKeeps([Frame([], root)], q, bytes, ignore) {
      var f, p :| f in [Frame([], root)] && q == f.path + p && Kept(f.children, f.path, p, bytes, ignore);
      assert q == p;
    }
  }

  // --- each file is visited once ---------------------------------------------------------------------

  /** Neither path lies below the other. */
  ghost predicate Apart(p: Path, q: Path) {
    !(p <= q) && !(q <= p)
  }

  ghost predicate StackApart(stack: seq<Frame>) {
    forall i, j :: 0 <= i < j < |stack| ==> Apart(stack[i].path, stack[j].path)
  }

  ghost predicate OncePerPath(files: Listing) {
    forall i, j :: 0 <= i < j < |files| ==> files[i].0 != files[j].0
  }

  lemma {:induction false} DirFilesOnce(path: Path, children: seq<Child>, ignore: Ignore)
    requires forall i, j :: 0 <= i < j < |children| ==> children[i].name != children[j].name
    ensures OncePerPath(DirFiles(path, children, ignore))
  {
    if children != [] {
      var c, rest := children[0], DirFiles(path, children[1..], ignore);
      DirFilesOnce(path, children[1..], ignore);
      forall j | 0 <= j < |rest| ensures rest[j].0 != path + [c.name] {
        DirFilesAre(path, children[1..], ignore, rest[j].0, rest[j].1);
        var i :| 0 <= i < |children[1..]| && rest[j].0 == path + [children[1..][i].name];
        assert children[1..][i] == children[i + 1];
        LastOf(path, c.name, children[i + 1].name);
      }
    }
  }

  lemma LastOf(path: Path, a: string, b: string)
    requires a != b
    ensures path + [a] != path + [b] && Apart(path + [a], path + [b])
  {
    assert (path + [a])[|path|] == a && (path + [b])[|path|] == b;
  }

  lemma {:induction false} SubFramesApart(path: Path, children: seq<Child>, ignore: Ignore)
    requires forall i, j :: 0 <= i < j < |children| ==> children[i].name != children[j].name
    ensures StackApart(SubFrames(path, children, ignore))
  {
    if children != [] {
      var c, rest := children[0], SubFrames(path, children[1..], ignore);
      SubFramesApart(path, children[1..], ignore);
      forall j | 0 <= j < |rest| ensures Apart(path + [c.name], rest[j].path) {
        SubFramesAre(path, children[1..], ignore, rest[j]);
        var i :| 0 <= i < |children[1..]| && rest[j].path == path + [children[1..][i].name];
        assert children[1..][i] == children[i + 1];
        LastOf(path, c.name, children[i + 1].name);
      }
    }
  }

  /** Subdirectories lie apart from whatever their parent lies apart from. */
  lemma ApartBelow(f: Path, sub: Path, g: Path)
    requires Apart(f, g) && f <= sub
    ensures Apart(sub, g)
  {
    assert !(g <= sub) by {
      if g <= sub {
        PrefixesCompare(f, g, sub);
      }
    }
  }

  lemma PrefixesCompare(f: Path, g: Path, q: Path)
    requires f <= q && g <= q
    ensures f <= g || g <= f
  {
    assert f == q[..|f|] && g == q[..|g|];
  }

  lemma NextStackApart(f: Frame, rest: seq<Frame>, ignore: Ignore)
    requires WellNamed(f.children) && StackApart([f] + rest)
    ensures StackApart(SubFrames(f.path, f.children, ignore) + rest)
  {
    var subs := SubFrames(f.path, f.children, ignore);
    SubFramesApart(f.path, f.children, ignore);
    forall i | 0 <= i < |rest| ensures Apart(f.path, rest[i].path) {
      assert ([f] + rest)[0] == f && ([f] + rest)[i + 1] == rest[i];
    }
    forall i, j | 0 <= i < j < |rest| ensures Apart(rest[i].path, rest[j].path) {
      assert ([f] + rest)[i + 1] == rest[i] && ([f] + rest)[j + 1] == rest[j];
    }
    forall i, j | 0 <= i < |subs| && 0 <= j < |rest| ensures Apart(subs[i].path, rest[j].path) {
      SubFramesAre(f.path, f.children, ignore, subs[i]);
      ApartBelow(f.path, subs[i].path, rest[j].path);
    }
  }

  /** What is listed in a directory itself is listed nowhere else. */
  lemma OwnFilesElsewhere(f: Frame, rest: seq<Frame>, ignore: Ignore, q: Path, bytes: Bytes)
    requires WellNamed(f.children) && StackApart([f] + rest)
    requires (q, bytes) in DirFiles(f.path, f.children, ignore)
    ensures forall b :: !StackKeeps(SubFrames(f.path, f.children, ignore) + rest, q, b, ignore)
  {
    DirFilesAre(f.path, f.children, ignore, q, bytes);
    forall b, g, p | g in SubFrames(f.path, f.children, ignore) + rest && Kept(g.children, g.path, p, b, ignore)
      ensures q != g.path + p
    {
      assert p != [];
      if g in SubFrames(f.path, f.children, ignore) {
        SubFramesAre(f.path, f.children, ignore, g);
        assert |g.path + p| > |q|;
      } else {
        var j :| 0 <= j < |rest| && rest[j] == g;
        assert ([f] + rest)[0] == f && ([f] + rest)[j + 1] == g;
        assert Apart(f.path, g.path) && f.path <= q;
        assert !(g.path <= q) by {
          if g.path <= q {
            PrefixesCompare(f.path, g.path, q);
          }
        }
        assert g.path <= g.path + p;
      }
    }
  }

  lemma {:induction false} WalkVisitsOnce(stack: seq<Frame>, ignore: Ignore)
    requires StackWellNamed(stack) && StackApart(stack)
    ensures OncePerPath(Walk(stack, ignore))
    decreases StackSize(stack)
  {
    if stack != [] {
      var f, rest := stack[0], stack[1..];
      var subs := SubFrames(f.path, f.children, ignore);
      assert stack == [f] + rest;
      SubFramesSmaller(f.path, f.children, ignore);
      StackSizeConcat(subs, rest);
      NextWellNamed(f, rest, ignore);
      NextStackApart(f, rest, ignore);
      WalkVisitsOnce(subs + rest, ignore);
      DirFilesOnce(f.path, f.children, ignore);
      var own, later := DirFiles(f.path, f.children, ignore), Walk(subs + rest, ignore);
      forall i, j | 0 <= i < |own| && 0 <= j < |later| ensures own[i].0 != later[j].0 {
        assert (own[i].0, own[i].1) == own[i] && (later[j].0, later[j].1) == later[j];
        OwnFilesElsewhere(f, rest, ignore, own[i].0, own[i].1);
        WalkIsStackFilter(subs + rest, ignore, later[j].0, later[j].1);
      }
      OnceConcat(own, later);
    }
  }

  lemma OnceConcat(a: Listing, b: Listing)
    requires OncePerPath(a) && OncePerPath(b)
    requires forall i, j :: 0 <= i < |a| && 0 <= j < |b| ==> a[i].0 != b[j].0
    ensures OncePerPath(a + b)
  {
  }

  /** The walk lists no path twice. */
  lemma WalkOnce(root: seq<Child>, ignore: Ignore)
    requires WellNamed(root)
    ensures OncePerPath(Walk([Frame([], root)], ignore))
  {
    WalkVisitsOnce([Frame([], root)], ignore);
  }
}
