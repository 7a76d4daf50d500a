/**
 Output directories on one disk.  A run prepares directories and leaves files in them; preparing raises when an
 earlier step left something there.  Whether a whole sequence of steps gets through is a matter of their paths, two
 at a time.
 */
module ArtifactTree {
  import opened Wrappers

  type Path = seq<string>

  /** Files and folders by their components; every folder on the way to something is itself there. */
  datatype Tree = Tree(files: set<Path>, folders: set<Path>)

  predicate Closed(t: Tree) {
    && t.files !! t.folders
    && forall n, i :: n in t.files + t.folders && 0 <= i < |n| ==> n[..i] in t.folders
  }

  /** One of the two lies on the way to the other, or they are the same. */
  predicate Related(p: Path, q: Path) {
    p <= q || q <= p
  }

  /**
   Prepare is prepare_artifact_output_dir, MakeNew and Make are mkdir(parents=True) without and with exist_ok, Save
   only writes files into a folder that is there.
   */
  datatype Kind = Prepare | MakeNew | Make | Save

  /** One step, with the files it leaves, named relative to its directory. */
  datatype Step = Step(kind: Kind, dir: Path, files: set<Path>)

  /** Names of files that can stand side by side. */
  predicate RealFiles(files: set<Path>) {
    && [] !in files
    && forall r, q :: r in files && q in files ==> !(r < q)
  }

  predicate Regular(s: Step) {
    RealFiles(s.files) && (s.kind.Make? ==> s.files == {})
  }

  // ---------------------------------------------------------------- one step

  /** Does the step find its way free? */
  predicate Fits(t: Tree, s: Step) {
    match s.kind
    case Prepare => (forall f :: f in t.files ==> !(f <= s.dir)) && (forall n :: n in t.files + t.folders ==> !(s.dir < n))
    case MakeNew => s.dir !in t.files && s.dir !in t.folders && forall f :: f in t.files ==> !(f < s.dir)
    case Make => forall f :: f in t.files ==> !(f <= s.dir)
    case Save => forall r :: r in s.files ==> SaveFits(t, s.dir + r)
  }

  predicate SaveFits(t: Tree, file: Path) {
    file !in t.folders && forall f :: f in t.files ==> !(f < file)
  }

  function Below(dir: Path, files: set<Path>): set<Path> {
    set r | r in files :: dir + r
  }

  function Prefixes(p: Path): set<Path> {
    set i | 0 <= i <= |p| :: p[..i]
  }

  /** The folders between a directory and its files. */
  function Between(dir: Path, files: set<Path>): set<Path> {
    set r, i | r in files && 0 <= i < |r| :: dir + r[..i]
  }

  function After(t: Tree, s: Step): Tree {
    Tree(t.files + Below(s.dir, s.files), t.folders + Prefixes(s.dir) + Between(s.dir, s.files))
  }

  /** Having done the first step keeps the second from fitting. */
  predicate InTheWay(a: Step, b: Step) {
    match b.kind
    case Prepare => b.dir < a.dir || exists r :: r in a.files && Related(b.dir, a.dir + r)
    case MakeNew => b.dir <= a.dir || exists r :: r in a.files && Related(b.dir, a.dir + r)
    case Make => exists r :: r in a.files && a.dir + r <= b.dir
    case Save => exists q :: q in b.files && FileInTheWay(a, b.dir + q)
  }

  predicate FileInTheWay(a: Step, file: Path) {
    file <= a.dir || exists r :: r in a.files && (file < a.dir + r || a.dir + r < file)
  }

  lemma PrefixIs(p: Path, q: Path)
    ensures p in Prefixes(q) <==> p <= q
  {
    if p <= q {
      assert q[..|p|] == p;
    }
  }

  lemma BetweenIs(n: Path, dir: Path, files: set<Path>)
    ensures n in Between(dir, files) <==> exists r :: r in files && dir <= n < dir + r
  {
    if n in Between(dir, files) {
      var r, i :| r in files && 0 <= i < |r| && n == dir + r[..i];
      assert n == (dir + r)[..|dir| + i];
    }
    forall r | r in files && dir <= n < dir + r ensures n in Between(dir, files) {
      var i := |n| - |dir|;
      assert n == (dir + r)[..|n|] == dir + r[..i];
    }
  }

  /** A path is a folder after a step when it was one, leads to the directory, or leads to one of its files. */
  lemma FolderAfter(t: Tree, s: Step, n: Path)
    ensures n in After(t, s).folders <==> n in t.folders || n <= s.dir || exists r :: r in s.files && s.dir <= n < s.dir + r
  {
    PrefixIs(n, s.dir);
    BetweenIs(n, s.dir, s.files);
  }

  lemma BelowAfter(t: Tree, a: Step, q: Path)
    ensures (forall n :: n in After(t, a).files + After(t, a).folders ==> !(q < n)) <==>
      (forall n :: n in t.files + t.folders ==> !(q < n)) && !(q < a.dir) && forall r :: r in a.files ==> !(q < a.dir + r)
  {
    var after := After(t, a);
    if forall n :: n in after.files + after.folders ==> !(q < n) {
      FolderAfter(t, a, a.dir);
      assert a.dir in after.files + after.folders;
      forall r | r in a.files ensures !(q < a.dir + r) {
        assert a.dir + r in after.files + after.folders;
      }
      forall n | n in t.files + t.folders ensures !(q < n) {
        assert n in after.files + after.folders;
      }
    }
    if (forall n :: n in t.files + t.folders ==> !(q < n)) && !(q < a.dir) && forall r :: r in a.files ==> !(q < a.dir + r) {
      forall n | n in after.files + after.folders ensures !(q < n) {
        FolderAfter(t, a, n);
        FilesAfter(t, a, n);
        if n !in t.files + t.folders {
          NewNodeLeadsOn(a, q, n);
        }
      }
    }
  }

  lemma NewNodeLeadsOn(a: Step, q: Path, n: Path)
    requires n <= a.dir || exists r :: r in a.files && n <= a.dir + r
    ensures q < n ==> q < a.dir || exists r :: r in a.files && q < a.dir + r
  {
    if q < n {
      if n <= a.dir {
        FurtherOn(q, n, a.dir);
      } else {
        var r :| r in a.files && n <= a.dir + r;
        FurtherOn(q, n, a.dir + r);
      }
    }
  }

  lemma FurtherOn(p: Path, q: Path, r: Path)
    requires p < q <= r
    ensures p < r
  {
    assert q == r[..|q|] && p == q[..|p|] == r[..|p|];
  }

  lemma SameBase(dir: Path, r: Path, q: Path)
    ensures dir + r < dir + q <==> r < q
    ensures dir + r <= dir + q <==> r <= q
  {
    assert (dir + r)[|dir|..] == r && (dir + q)[|dir|..] == q;
    if dir + r <= dir + q {
      assert dir + r == (dir + q)[..|dir| + |r|];
      assert r == q[..|r|];
    }
    if r <= q {
      assert q[..|r|] == r;
      assert dir + r == (dir + q)[..|dir| + |r|];
    }
  }

  lemma FilesAfter(t: Tree, a: Step, f: Path)
    ensures f in After(t, a).files <==> f in t.files || exists r :: r in a.files && f == a.dir + r
  {
  }

  /** A step fits after another exactly when it fitted before and the other is not in its way. */
  lemma FitsAfter(t: Tree, a: Step, b: Step)
    ensures Fits(After(t, a), b) <==> Fits(t, b) && !InTheWay(a, b)
  {
    match b.kind
    case Prepare => PrepareFitsAfter(t, a, b);
    case MakeNew => MakeNewFitsAfter(t, a, b);
    case Make => MakeFitsAfter(t, a, b);
    case Save => SaveStepFitsAfter(t, a, b);
  }

  lemma PrepareFitsAfter(t: Tree, a: Step, b: Step)
    requires b.kind.Prepare?
    ensures Fits(After(t, a), b) <==> Fits(t, b) && !InTheWay(a, b)
  {
    BelowAfter(t, a, b.dir);
    FileAtOrAbove(t, a, b.dir);
  }

  lemma FileAtOrAbove(t: Tree, a: Step, q: Path)
    ensures (forall f :: f in After(t, a).files ==> !(f <= q)) <==>
      (forall f :: f in t.files ==> !(f <= q)) && forall r :: r in a.files ==> !(a.dir + r <= q)
  {
    var after := After(t, a);
    if forall f :: f in after.files ==> !(f <= q) {
      forall r | r in a.files ensures !(a.dir + r <= q) {
        assert a.dir + r in after.files;
      }
    }
  }

  lemma FileStrictlyAbove(t: Tree, a: Step, q: Path)
    ensures (forall f :: f in After(t, a).files ==> !(f < q)) <==>
      (forall f :: f in t.files ==> !(f < q)) && forall r :: r in a.files ==> !(a.dir + r < q)
  {
    var after := After(t, a);
    if forall f :: f in after.files ==> !(f < q) {
      forall r | r in a.files ensures !(a.dir + r < q) {
        assert a.dir + r in after.files;
      }
    }
  }

  lemma MakeNewFitsAfter(t: Tree, a: Step, b: Step)
    requires b.kind.MakeNew?
    ensures Fits(After(t, a), b) <==> Fits(t, b) && !InTheWay(a, b)
  {
    FolderAfter(t, a, b.dir);
    FilesAfter(t, a, b.dir);
    FileStrictlyAbove(t, a, b.dir);
  }

  lemma MakeFitsAfter(t: Tree, a: Step, b: Step)
    requires b.kind.Make?
    ensures Fits(After(t, a), b) <==> Fits(t, b) && !InTheWay(a, b)
  {
    FileAtOrAbove(t, a, b.dir);
  }

  lemma SaveFitsAfter(t: Tree, a: Step, file: Path)
    ensures SaveFits(After(t, a), file) <==> SaveFits(t, file) && !FileInTheWay(a, file)
  {
    FolderAfter(t, a, file);
    FileStrictlyAbove(t, a, file);
  }

  lemma SaveStepFitsAfter(t: Tree, a: Step, b: Step)
    requires b.kind.Save?
    ensures Fits(After(t, a), b) <==> Fits(t, b) && !InTheWay(a, b)
  {
    forall r | r in b.files ensures SaveFits(After(t, a), b.dir + r) <==> SaveFits(t, b.dir + r) && !FileInTheWay(a, b.dir + r) {
      SaveFitsAfter(t, a, b.dir + r);
    }
  }

  // ---------------------------------------------------------------- sequences of steps

  /** The steps one after the other; None as soon as one of them raises. */
  function Runs(t: Tree, steps: seq<Step>): Option<Tree> {
    if |steps| == 0 then Some(t)
    else
      var before, last := Runs(t, steps[..|steps| - 1]), steps[|steps| - 1];
      if before.Some? && Fits(before.value, last) then Some(After(before.value, last)) else None
  }

  lemma RunsSnoc(t: Tree, steps: seq<Step>, s: Step)
    ensures Runs(t, steps + [s]) ==
      var before := Runs(t, steps); if before.Some? && Fits(before.value, s) then Some(After(before.value, s)) else None
  {
    assert (steps + [s])[..|steps|] == steps;
  }

  lemma {:induction false} RunsConcat(t: Tree, a: seq<Step>, b: seq<Step>)
    ensures Runs(t, a + b) == if Runs(t, a).Some? then Runs(Runs(t, a).value, b) else None
  {
    if |b| == 0 {
      assert a + b == a;
    } else {
      var n := |b| - 1;
      RunsConcat(t, a, b[..n]);
      assert (a + b)[..|a + b| - 1] == a + b[..n];
    }
  }

  /** Several sequences, one after the other. */
  function Flat(parts: seq<seq<Step>>): seq<Step> {
    if |parts| == 0 then [] else Flat(parts[..|parts| - 1]) + parts[|parts| - 1]
  }

  lemma RunsFlatSnoc(t: Tree, parts: seq<seq<Step>>, n: nat)
    requires n < |parts|
    ensures Flat(parts[..n + 1]) == Flat(parts[..n]) + parts[n]
    ensures Runs(t, Flat(parts[..n + 1])) ==
      var before := Runs(t, Flat(parts[..n])); if before.Some? then Runs(before.value, parts[n]) else None
  {
    assert parts[..n + 1][..n] == parts[..n];
    RunsConcat(t, Flat(parts[..n]), parts[n]);
  }

  lemma {:induction false} RunsFlatStop(t: Tree, parts: seq<seq<Step>>, n: nat)
    requires n <= |parts| && Runs(t, Flat(parts[..n])).None?
    ensures Runs(t, Flat(parts)).None?
    decreases |parts| - n
  {
    if n == |parts| {
      assert parts[..n] == parts;
    } else {
      RunsFlatSnoc(t, parts, n);
      RunsFlatStop(t, parts, n + 1);
    }
  }

  /** When the sequences before it got through, the flag tells whether this one does. */
  predicate Tells(t: Tree, parts: seq<seq<Step>>, m: nat, flag: bool)
    requires m < |parts|
  {
    var before := Runs(t, Flat(parts[..m]));
    before.Some? ==> (Runs(before.value, parts[m]).Some? <==> flag)
  }

  /** Sequences whose flags tell about them all get through exactly when all flags are set. */
  lemma {:induction false} RunsFlatIff(t: Tree, parts: seq<seq<Step>>, flags: seq<bool>, n: nat)
    requires n <= |parts| == |flags| && forall m {:trigger Tells(t, parts, m, flags[m])} :: 0 <= m < |parts| ==> Tells(t, parts, m, flags[m])
    ensures Runs(t, Flat(parts[..n])).Some? <==> forall m :: 0 <= m < n ==> flags[m]
  {
    if n > 0 {
      RunsFlatIff(t, parts, flags, n - 1);
      RunsFlatSnoc(t, parts, n - 1);
      assert Tells(t, parts, n - 1, flags[n - 1]);
    }
  }

  /** Nothing on the disk and no earlier step is in the way of any step. */
  predicate Orderly(t: Tree, steps: seq<Step>) {
    && (forall j :: 0 <= j < |steps| ==> Fits(t, steps[j]))
    && (forall i, j :: 0 <= i < j < |steps| ==> !InTheWay(steps[i], steps[j]))
  }

  predicate NoneInTheWay(steps: seq<Step>, s: Step) {
    forall i :: 0 <= i < |steps| ==> !InTheWay(steps[i], s)
  }

  lemma {:induction false} FitsAfterAll(t: Tree, steps: seq<Step>, s: Step)
    requires Runs(t, steps).Some?
    ensures Fits(Runs(t, steps).value, s) <==> Fits(t, s) && NoneInTheWay(steps, s)
  {
    if |steps| > 0 {
      var n := |steps| - 1;
      FitsAfterAll(t, steps[..n], s);
      FitsAfter(Runs(t, steps[..n]).value, steps[n], s);
      NoneInTheWaySnoc(steps[..n], steps[n], s);
      assert steps == steps[..n] + [steps[n]];
    }
  }

  lemma NoneInTheWaySnoc(steps: seq<Step>, last: Step, s: Step)
    ensures NoneInTheWay(steps + [last], s) <==> NoneInTheWay(steps, s) && !InTheWay(last, s)
  {
    var more := steps + [last];
    assert more[|steps|] == last && forall i :: 0 <= i < |steps| ==> more[i] == steps[i];
    if NoneInTheWay(more, s) {
      forall i | 0 <= i < |steps| ensures !InTheWay(steps[i], s) {
        assert !InTheWay(more[i], s);
      }
    }
  }

  lemma OrderlySnoc(t: Tree, steps: seq<Step>, s: Step)
    ensures Orderly(t, steps + [s]) <==> Orderly(t, steps) && Fits(t, s) && NoneInTheWay(steps, s)
  {
    var more := steps + [s];
    assert more[|steps|] == s && forall i :: 0 <= i < |steps| ==> more[i] == steps[i];
    if Orderly(t, more) {
      forall j | 0 <= j < |steps| ensures Fits(t, steps[j]) {
        assert Fits(t, more[j]);
      }
      forall i, j | 0 <= i < j < |steps| ensures !InTheWay(steps[i], steps[j]) {
        assert !InTheWay(more[i], more[j]);
      }
      forall i | 0 <= i < |steps| ensures !InTheWay(steps[i], s) {
        assert !InTheWay(more[i], more[|steps|]);
      }
    }
  }

  /** A whole sequence gets through exactly when its steps are out of each other's way, two at a time. */
  lemma {:induction false} RunsIffOrderly(t: Tree, steps: seq<Step>)
    ensures Runs(t, steps).Some? <==> Orderly(t, steps)
  {
    if |steps| > 0 {
      var n := |steps| - 1;
      RunsIffOrderly(t, steps[..n]);
      OrderlySnoc(t, steps[..n], steps[n]);
      assert steps == steps[..n] + [steps[n]];
      if Runs(t, steps[..n]).Some? {
        FitsAfterAll(t, steps[..n], steps[n]);
      }
    }
  }

  // ---------------------------------------------------------------- the disk

  lemma ClosedAfter(t: Tree, s: Step)
    requires Closed(t) && Regular(s) && Fits(t, s) && (s.kind.Save? ==> s.dir in t.folders)
    ensures Closed(After(t, s))
  {
    var after := After(t, s);
    forall n, i | n in after.files + after.folders && 0 <= i < |n| ensures n[..i] in after.folders {
      FolderAfter(t, s, n);
      FolderAfter(t, s, n[..i]);
      FilesAfter(t, s, n);
    }
    forall n | n in after.files ensures n !in after.folders {
      FilesAfter(t, s, n);
      FolderAfter(t, s, n);
      if n in t.files {
        OldFileIsNoFolder(t, s, n);
      } else {
        var r :| r in s.files && n == s.dir + r;
        NewFileIsNoFolder(t, s, r);
      }
    }
  }

  lemma OldFileIsNoFolder(t: Tree, s: Step, f: Path)
    requires Closed(t) && Regular(s) && Fits(t, s) && (s.kind.Save? ==> s.dir in t.folders) && f in t.files
    ensures !(f <= s.dir) && forall r :: r in s.files ==> !(s.dir <= f < s.dir + r)
  {
    NotOnTheWay(t, s, f);
    forall r | r in s.files ensures !(s.dir <= f < s.dir + r) {
      if s.kind.Save? {
        assert SaveFits(t, s.dir + r);
      } else if s.dir < f {
        FirstBelow(t, s.dir, f);
      }
    }
  }

  lemma NotOnTheWay(t: Tree, s: Step, f: Path)
    requires Closed(t) && Fits(t, s) && (s.kind.Save? ==> s.dir in t.folders) && f in t.files
    ensures !(f <= s.dir)
  {
    AtOrAbove(f, s.dir);
    if s.kind.Save? && f < s.dir {
      OnTheWayIsFolder(t, f, s.dir);
    }
  }

  lemma AtOrAbove(p: Path, q: Path)
    ensures p <= q <==> p == q || p < q
  {
    if p <= q && |p| == |q| {
      assert p == q[..|p|];
    }
  }

  lemma OnTheWayIsFolder(t: Tree, p: Path, n: Path)
    requires Closed(t) && n in t.files + t.folders && p < n
    ensures p in t.folders
  {
    assert n[..|p|] == p;
  }

  lemma NothingBelow(t: Tree, s: Step, r: Path)
    requires Closed(t) && Regular(s) && Fits(t, s) && r in s.files
    ensures s.dir + r !in t.folders
  {
    var n := s.dir + r;
    assert r != [] && s.dir < n && n[..|s.dir|] == s.dir;
    match s.kind
    case Prepare => assert n in t.folders ==> n in t.files + t.folders;
    case MakeNew => if n in t.files + t.folders { FirstBelow(t, s.dir, n); }
    case Make =>
    case Save => assert SaveFits(t, s.dir + r);
  }

  lemma NewFileIsNoFolder(t: Tree, s: Step, r: Path)
    requires Closed(t) && Regular(s) && Fits(t, s) && r in s.files
    ensures s.dir + r !in t.folders && !(s.dir + r <= s.dir) && forall q :: q in s.files ==> !(s.dir + r < s.dir + q)
  {
    var n := s.dir + r;
    assert r != [] && s.dir < n && n[..|s.dir|] == s.dir;
    NothingBelow(t, s, r);
    forall q | q in s.files ensures !(n < s.dir + q) {
      SameBase(s.dir, r, q);
    }
  }

  /** What is on disk during a run. */
  class ArtifactDisk {
    var tree: Tree

    ghost predicate Valid()
      reads this
    {
      Closed(tree)
    }

    /** The output directory of the run, there and empty. */
    constructor (root: Path)
      ensures Valid() && tree == FreshTree(root)
    {
      tree := FreshTree(root);
      new;
      forall n, i | n in tree.folders && 0 <= i < |n| ensures n[..i] in tree.folders {
        PrefixIs(n, root);
        PrefixIs(n[..i], root);
      }
    }

    /** mkdir(parents=True): a file on the way, or in its place, stops it. */
    method MakeDirectory(dir: Path) returns (ok: bool)
      requires Valid()
      modifies this
      ensures Valid() && ok == Fits(old(tree), Step(Make, dir, {}))
      ensures tree == if ok then After(old(tree), Step(Make, dir, {})) else old(tree)
    {
      var step := Step(Make, dir, {});
      ok := !exists f :: f in tree.files && f <= dir;
      if ok {
        ClosedAfter(tree, step);
        tree := After(tree, step);
      }
    }

    /** prepare_artifact_output_dir: a file, or a folder with anything in it, is refused. */
    method PrepareDirectory(dir: Path) returns (ok: bool)
      requires Valid()
      modifies this
      ensures Valid() && ok == Fits(old(tree), Step(Prepare, dir, {}))
      ensures tree == if ok then After(old(tree), Step(Prepare, dir, {})) else old(tree)
    {
      var step := Step(Prepare, dir, {});
      if dir in tree.files {
        return false;
      }
      if dir in tree.folders && exists n :: n in tree.files + tree.folders && |n| == |dir| + 1 && dir < n {
        return false;
      }
      EmptyOrAbsent(tree, dir);
      ok := !exists f :: f in tree.files && f <= dir;
      if ok {
        ClosedAfter(tree, step);
        tree := After(tree, step);
      }
    }

    /** mkdir(parents=True, exist_ok=False). */
    method MakeNewDirectory(dir: Path) returns (ok: bool)
      requires Valid()
      modifies this
      ensures Valid() && ok == Fits(old(tree), Step(MakeNew, dir, {}))
      ensures tree == if ok then After(old(tree), Step(MakeNew, dir, {})) else old(tree)
    {
      var step := Step(MakeNew, dir, {});
      ok := dir !in tree.files && dir !in tree.folders && !exists f :: f in tree.files && f < dir;
      if ok {
        ClosedAfter(tree, step);
        tree := After(tree, step);
      }
    }

    /** Writes files below a folder; a folder in a file's place, or a file in a folder's, stops it. */
    method SaveFiles(dir: Path, files: set<Path>) returns (ok: bool)
      requires Valid() && dir in tree.folders && RealFiles(files)
      modifies this
      ensures Valid() && ok == Fits(old(tree), Step(Save, dir, files))
      ensures tree == if ok then After(old(tree), Step(Save, dir, files)) else old(tree)
    {
      var step := Step(Save, dir, files);
      ok := forall r :: r in files ==> dir + r !in tree.folders && !exists f :: f in tree.files && f < dir + r;
      if ok {
        ClosedAfter(tree, step);
        tree := After(tree, step);
      }
    }

    /** A directory made for one thing, and the files that thing leaves in it. */
    method Leave(kind: Kind, dir: Path, files: set<Path>) returns (ok: bool)
      requires Valid() && kind in {Prepare, MakeNew} && RealFiles(files)
      modifies this
      ensures Valid() && ok == Fits(old(tree), Step(kind, dir, files))
      ensures ok ==> tree == After(old(tree), Step(kind, dir, files))
    {
      if kind == Prepare {
        ok := PrepareDirectory(dir);
      } else {
        ok := MakeNewDirectory(dir);
      }
      if ok {
        PreparedAndSaved(old(tree), kind, dir, files);
        ok := SaveFiles(dir, files);
      }
    }
  }

  function FreshTree(root: Path): Tree {
    Tree({}, Prefixes(root))
  }

  lemma FirstBelow(t: Tree, dir: Path, n: Path)
    requires Closed(t) && n in t.files + t.folders && dir < n
    ensures dir in t.folders && n[..|dir| + 1] in t.files + t.folders && dir < n[..|dir| + 1]
  {
    assert n[..|dir|] == dir && n[..|dir| + 1][..|dir|] == dir;
    assert n[..|n|] == n;
  }

  /** Without children there is nothing below at all. */
  lemma EmptyOrAbsent(t: Tree, dir: Path)
    requires Closed(t) && dir !in t.files
    requires dir in t.folders ==> forall n :: n in t.files + t.folders && |n| == |dir| + 1 ==> !(dir < n)
    ensures forall n :: n in t.files + t.folders ==> !(dir < n)
  {
    forall n | n in t.files + t.folders && dir < n ensures false {
      FirstBelow(t, dir, n);
    }
  }

  lemma OnTheWayBelow(t: Tree, kind: Kind, dir: Path, r: Path, f: Path)
    requires Closed(t) && kind in {Prepare, MakeNew} && Fits(t, Step(kind, dir, {})) && f in t.files
    ensures !(f < dir + r)
  {
    NotOnTheWay(t, Step(kind, dir, {}), f);
    EitherSide(f, dir, r);
    if dir < f {
      FirstBelow(t, dir, f);
    }
  }

  /** A way into a directory leads to the directory or starts from it. */
  lemma EitherSide(f: Path, dir: Path, r: Path)
    ensures f <= dir + r ==> f <= dir || dir < f
  {
    if f <= dir + r {
      assert f == (dir + r)[..|f|] && dir == (dir + r)[..|dir|];
      if |f| <= |dir| {
        assert f == dir[..|f|];
      } else {
        assert dir == f[..|dir|];
      }
    }
  }

  /** Preparing a directory and writing into it is one step with files. */
  lemma PreparedAndSaved(t: Tree, kind: Kind, dir: Path, files: set<Path>)
    requires Closed(t) && kind in {Prepare, MakeNew} && RealFiles(files) && Fits(t, Step(kind, dir, {}))
    ensures Fits(t, Step(kind, dir, files))
    ensures Fits(After(t, Step(kind, dir, {})), Step(Save, dir, files))
    ensures After(After(t, Step(kind, dir, {})), Step(Save, dir, files)) == After(t, Step(kind, dir, files))
    ensures dir in After(t, Step(kind, dir, {})).folders
  {
    var made := Step(kind, dir, {});
    PrefixIs(dir, dir);
    forall r | r in files ensures SaveFits(After(t, made), dir + r) {
      NewFileIsNoFolder(t, Step(kind, dir, files), r);
      SaveFitsAfter(t, made, dir + r);
      forall f | f in t.files ensures !(f < dir + r) {
        OnTheWayBelow(t, kind, dir, r, f);
      }
    }
  }
}
