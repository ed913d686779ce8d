/** Terraform and apply residue, the `ignore` of Structure trees (cats/network/packaging.py), and path splitting. */
module Residue {
  import opened DirWalk
  import opened Text
  import opened Wrappers

  function Replace(s: string, from: char, to: char): (r: string)
    ensures |r| == |s| && forall i :: 0 <= i < |s| ==> r[i] == if s[i] == from then to else s[i]
  {
    seq(|s|, i requires 0 <= i < |s| => if s[i] == from then to else s[i])
  }

  /** `s.split('/')`. */
  function Split(s: string): (parts: seq<string>)
    ensures parts != []
  {
    if s == [] then [[]]
    else if s[0] == '/' then [[]] + Split(s[1..])
    else
      var rest := Split(s[1..]);
      [[s[0]] + rest[0]] + rest[1..]
  }

  /** `STRUCTURE_APPLY_RESIDUE_DIRS`. */
  predicate ResidueDir(name: string) {
    name == ".terraform" || name == ".terraform-data" || name == "__pycache__"
  }

  /** `STRUCTURE_APPLY_RESIDUE_FILES`, or compiled Python. */
  predicate ResidueFile(name: string) {
    || name == "terraform.tfstate" || name == "terraform.tfstate.backup"
    || name == ".terraform.tfstate.lock.info" || name == "terraform.tfstate.lock.info"
    || name == ".applied-structure.id" || name == ".applied-structure.cid"
    || EndsWith(name, ".pyc")
  }

  predicate ResidueParts(parts: seq<string>)
    requires parts != []
  {
    (exists i :: 0 <= i < |parts| && ResidueDir(parts[i])) || ResidueFile(parts[|parts| - 1])
  }

  /** `is_structure_apply_residue`. */
  predicate IsResidue(rel: string) {
    ResidueParts(Split(Replace(rel, '\\', '/')))
  }

  /** Path components without separators. */
  ghost predicate PlainPath(p: Path) {
    forall i :: 0 <= i < |p| ==> p[i] != [] && '/' !in p[i] && '\\' !in p[i]
  }

  lemma {:induction false} SplitHead(name: string, rest: string)
    requires '/' !in name
    ensures Split(name) == [name]
    ensures Split(name + "/" + rest) == [name] + Split(rest)
  {
    var s := name + "/" + rest;
    if name == [] {
      assert s[1..] == rest;
    } else {
      assert s[1..] == name[1..] + "/" + rest;
      SplitHead(name[1..], rest);
      assert name == [name[0]] + name[1..];
    }
  }

  /** Splitting undoes joining. */
  lemma {:induction false} SplitJoin(p: Path)
    requires p != [] && forall i :: 0 <= i < |p| ==> '/' !in p[i]
    ensures Split(Join(p)) == p
  {
    if |p| == 1 {
      SplitHead(p[0], []);
      assert p == [p[0]];
    } else {
      SplitJoin(p[1..]);
      SplitHead(p[0], Join(p[1..]));
      assert p == [p[0]] + p[1..];
    }
  }

  lemma {:induction false} JoinChars(p: Path, c: char)
    requires c != '/'
    ensures c !in Join(p) <==> forall i :: 0 <= i < |p| ==> c !in p[i]
  {
    if |p| > 1 {
      JoinChars(p[1..], c);
      assert forall i :: 0 < i < |p| ==> p[i] == p[1..][i - 1];
    }
  }

  lemma ResidueOfPrefix(p: Path, k: nat)
    requires PlainPath(p) && 1 <= k <= |p|
    ensures IsResidue(Join([] + p[..k])) <==> ResidueParts(p[..k])
  {
    var q := p[..k];
    assert [] + q == q;
    JoinChars(q, '\\');
    assert Replace(Join(q), '\\', '/') == Join(q);
    SplitJoin(q);
  }

  /** The names of Terraform and apply residue. */
  lemma ResidueNameIff(name: string)
    ensures ResidueDir(name) || ResidueFile(name) <==>
      || name in {".terraform", ".terraform-data", "__pycache__"}
      || name in {"terraform.tfstate", "terraform.tfstate.backup", ".terraform.tfstate.lock.info",
                  "terraform.tfstate.lock.info", ".applied-structure.id", ".applied-structure.cid"}
      || (|name| >= 4 && name[|name| - 4..] == ".pyc")
  {
  }

  /** For residue, a file survives pruning exactly when no component of its path has a residue name: a
      directory named like a residue file is pruned as well. */
  lemma KeptIffNoResidueName(root: seq<Child>, p: Path, bytes: Bytes)
    requires PlainPath(p)
    ensures Kept(root, [], p, bytes, IsResidue) <==>
      Lookup(root, p) == Some(bytes) && forall i :: 0 <= i < |p| ==> !ResidueDir(p[i]) && !ResidueFile(p[i])
  {
    forall k | 1 <= k <= |p| ensures IsResidue(Join([] + p[..k])) <==> ResidueParts(p[..k]) {
      ResidueOfPrefix(p, k);
    }
    if Kept(root, [], p, bytes, IsResidue) {
      forall i | 0 <= i < |p| ensures !ResidueDir(p[i]) && !ResidueFile(p[i]) {
        assert !IsResidue(Join([] + p[..i + 1]));
        assert p[..i + 1][i] == p[i];
      }
    }
  }

  /** Filtering complete paths alone would be weaker: a plain file below a directory named like compiled
      Python is no residue by its own path, yet it is pruned with the directory. */
  lemma PruningIsStronger(dir: string, file: string)
    requires PlainPath([dir, file]) && EndsWith(dir, ".pyc") && !ResidueDir(dir)
    requires !ResidueDir(file) && !ResidueFile(file)
    ensures IsResidue(Join([dir])) && !IsResidue(Join([dir, file]))
  {
    var p := [dir, file];
    ResidueOfPrefix(p, 1);
    ResidueOfPrefix(p, 2);
    assert [] + p[..1] == [dir] && [] + p[..2] == p;
  }
}
