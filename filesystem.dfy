/**
 * An abstract local filesystem standing in for `os.path.exists`,
 * `os.path.isdir` and `os.walk`, and the directory expansion
 * `get_file_paths` built on them.
 */
module FileSystem {

  /**
   * A filesystem object. A directory lists the names of its files and its
   * subdirectories in enumeration order; no particular order is required of it.
   */
  datatype Node = File | Dir(files: seq<string>, subdirs: seq<Entry>)
  datatype Entry = Entry(name: string, node: Node)

  /** The objects that exist, by path: `os.path.exists(p)` is `p in fs`. */
  type Fs = map<string, Node>

  /** `os.path.isdir(p)`. */
  predicate IsDir(fs: Fs, p: string) {
    p in fs && fs[p].Dir?
  }

  /** POSIX `os.path.join(a, b)`. */
  function PathJoin(a: string, b: string): string {
    if |b| > 0 && b[0] == '/' then b
    else if a == [] || a[|a| - 1] == '/' then a + b
    else a + "/" + b
  }

  /** One `(root, files)` pair yielded by `os.walk`. */
  datatype WalkStep = WalkStep(root: string, files: seq<string>)

  /** `os.walk(root)` over node `n`, top-down: a directory, then each subdirectory in turn. */
  function Walk(root: string, n: Node): seq<WalkStep>
    decreases n, 1
  {
    match n
    case File => []
    case Dir(files, subdirs) => [WalkStep(root, files)] + WalkEach(root, subdirs, n)
  }

  /** The walks of the subdirectories `subdirs` of `parent`, one after the other. */
  function WalkEach(root: string, subdirs: seq<Entry>, ghost parent: Node): seq<WalkStep>
    requires parent.Dir? && subdirs <= parent.subdirs
    decreases parent, 0, |subdirs|
  {
    if subdirs == [] then []
    else
      assert subdirs[|subdirs| - 1] in parent.subdirs;
      var last := subdirs[|subdirs| - 1];
      WalkEach(root, subdirs[..|subdirs| - 1], parent) + Walk(PathJoin(root, last.name), last.node)
  }

  /** The walk of the object at `p`; a missing path or a plain file yields nothing. */
  function WalkFrom(fs: Fs, p: string): seq<WalkStep> {
    if p in fs then Walk(p, fs[p]) else []
  }

  /** `[os.path.join(root, x) for x in files]`. */
  function JoinAll(step: WalkStep): (r: seq<string>)
    ensures |r| == |step.files|
    ensures forall i :: 0 <= i < |r| ==> r[i] == PathJoin(step.root, step.files[i])
  {
    seq(|step.files|, i requires 0 <= i < |step.files| => PathJoin(step.root, step.files[i]))
  }

  /** The joined file paths of a sequence of walk steps, in order. */
  function Flatten(steps: seq<WalkStep>): seq<string> {
    if steps == [] then [] else Flatten(steps[..|steps| - 1]) + JoinAll(steps[|steps| - 1])
  }

  lemma {:induction false} FlattenConcat(a: seq<WalkStep>, b: seq<WalkStep>)
    ensures Flatten(a + b) == Flatten(a) + Flatten(b)
    decreases |b|
  {
    if b != [] {
      assert (a + b)[..|a + b| - 1] == a + b[..|b| - 1];
      FlattenConcat(a, b[..|b| - 1]);
    } else {
      assert a + b == a;
    }
  }

  /**
   * What `get_file_paths(p, recursive)` returns: the files of the first
   * directory the walk yields, or with `recursive` those of every directory.
   */
  function FilePaths(fs: Fs, p: string, recursive: bool): seq<string> {
    var steps := WalkFrom(fs, p);
    if recursive || steps == [] then Flatten(steps) else Flatten(steps[..1])
  }

  /**
   * `get_file_paths`: extends the result with each directory's files while
   * iterating the walk, and stops after the first unless `recursive`.
   */
  method GetFilePaths(fs: Fs, p: string, recursive: bool) returns (filePaths: seq<string>)
    ensures filePaths == FilePaths(fs, p, recursive)
  {
    var steps := WalkFrom(fs, p);
    filePaths := [];
    var i := 0;
    while i < |steps|
      invariant 0 <= i <= |steps|
      invariant !recursive ==> i == 0
      invariant filePaths == Flatten(steps[..i])
    {
      assert steps[..i + 1][..i] == steps[..i];
      filePaths := filePaths + JoinAll(steps[i]);
      i := i + 1;
      if !recursive {
        break;
      }
    }
    if recursive || steps == [] {
      assert i == |steps| && steps[..|steps|] == steps;
    } else {
      assert i == 1;
    }
  }

  /** The walk of a directory starts with the directory itself. */
  lemma WalkHead(root: string, n: Node)
    requires n.Dir?
    ensures |Walk(root, n)| >= 1 && Walk(root, n)[..1] == [WalkStep(root, n.files)]
  {
    var w := Walk(root, n);
    assert w == [WalkStep(root, n.files)] + WalkEach(root, n.subdirs, n);
  }

  lemma FlattenOne(step: WalkStep)
    ensures Flatten([step]) == JoinAll(step)
  {
    assert [step][..0] == [];
  }

  /** A non-recursive expansion opens exactly the directory's own files. */
  lemma NonRecursiveIsOwnFiles(fs: Fs, p: string)
    requires IsDir(fs, p)
    ensures FilePaths(fs, p, false) == JoinAll(WalkStep(p, fs[p].files))
  {
    WalkHead(p, fs[p]);
    FlattenOne(WalkStep(p, fs[p].files));
  }

  /** Every file of a non-recursive expansion is in the recursive one. */
  lemma NonRecursiveWithinRecursive(fs: Fs, p: string)
    ensures forall x :: x in FilePaths(fs, p, false) ==> x in FilePaths(fs, p, true)
  {
    var steps := WalkFrom(fs, p);
    if steps != [] {
      assert steps == steps[..1] + steps[1..];
      FlattenConcat(steps[..1], steps[1..]);
    }
  }

  /**
   * `rel` leads from `n` to one of its files: zero or more subdirectory names,
   * then a file name.
   */
  ghost predicate FileAt(n: Node, rel: seq<string>)
    decreases n
  {
    match n
    case File => false
    case Dir(files, subdirs) =>
      (|rel| == 1 && rel[0] in files) ||
      (|rel| > 1 && exists e :: e in subdirs && e.name == rel[0] && FileAt(e.node, rel[1..]))
  }

  /** The path of `rel` below `root`, joined one name at a time. */
  function Under(root: string, rel: seq<string>): string
    decreases |rel|
  {
    if rel == [] then root else Under(PathJoin(root, rel[0]), rel[1..])
  }

  lemma FileAtNonEmpty(n: Node, rel: seq<string>)
    requires FileAt(n, rel)
    ensures |rel| >= 1
  {
  }

  /** The joined paths of a directory's walk: its own files, then those below. */
  lemma FlattenDirWalk(root: string, n: Node)
    requires n.Dir?
    ensures Flatten(Walk(root, n)) ==
      JoinAll(WalkStep(root, n.files)) + Flatten(WalkEach(root, n.subdirs, n))
  {
    var step := WalkStep(root, n.files);
    assert Walk(root, n) == [step] + WalkEach(root, n.subdirs, n);
    FlattenConcat([step], WalkEach(root, n.subdirs, n));
    FlattenOne(step);
  }

  /** A path the walk of a directory yields leads to a file of it. */
  lemma YieldedIsFileAt(root: string, n: Node, x: string)
    requires n.Dir?
    requires x in JoinAll(WalkStep(root, n.files)) ||
      exists e, rel :: e in n.subdirs && FileAt(e.node, rel) && x == Under(PathJoin(root, e.name), rel)
    ensures exists rel :: FileAt(n, rel) && x == Under(root, rel)
  {
    if x in JoinAll(WalkStep(root, n.files)) {
      var i :| 0 <= i < |n.files| && x == PathJoin(root, n.files[i]);
      var rel := [n.files[i]];
      assert FileAt(n, rel);
      assert Under(root, rel) == Under(PathJoin(root, n.files[i]), []);
    } else {
      var e, rel' :| e in n.subdirs && FileAt(e.node, rel') && x == Under(PathJoin(root, e.name), rel');
      FileAtNonEmpty(e.node, rel');
      var rel := [e.name] + rel';
      assert rel[1..] == rel';
      assert FileAt(n, rel);
      assert x == Under(root, rel);
    }
  }

  /** A file of a directory is yielded by its walk, at that level or below. */
  lemma FileAtIsYielded(root: string, n: Node, rel: seq<string>)
    requires n.Dir? && FileAt(n, rel)
    ensures var x := Under(root, rel);
      x in JoinAll(WalkStep(root, n.files)) ||
      exists e, rel' :: e in n.subdirs && FileAt(e.node, rel') && x == Under(PathJoin(root, e.name), rel')
  {
    if |rel| == 1 {
      var i :| 0 <= i < |n.files| && n.files[i] == rel[0];
      assert rel[1..] == [];
      assert Under(root, rel) == JoinAll(WalkStep(root, n.files))[i];
    } else {
      var e :| e in n.subdirs && e.name == rel[0] && FileAt(e.node, rel[1..]);
      var x := Under(root, rel);
      assert x == Under(PathJoin(root, e.name), rel[1..]);
      assert e in n.subdirs && FileAt(e.node, rel[1..]) && x == Under(PathJoin(root, e.name), rel[1..]);
    }
  }

  /**
   * The recursive walk reaches every file at every depth and nothing else:
   * `x` is among its joined paths exactly when some name path leads from `n`
   * to a file and `x` is that path below `root`.
   */
  lemma {:induction false} WalkFiles(root: string, n: Node, x: string)
    ensures x in Flatten(Walk(root, n)) <==> exists rel :: FileAt(n, rel) && x == Under(root, rel)
    decreases n, 1
  {
    if n.Dir? {
      FlattenDirWalk(root, n);
      WalkEachFiles(root, n.subdirs, n, x);
      if x in Flatten(Walk(root, n)) {
        YieldedIsFileAt(root, n, x);
      }
      if exists rel :: FileAt(n, rel) && x == Under(root, rel) {
        var rel :| FileAt(n, rel) && x == Under(root, rel);
        FileAtIsYielded(root, n, rel);
      }
    }
  }

  /** The walks of some subdirectories are those of all but the last, then the walk of the last. */
  lemma WalkEachSnoc(root: string, subdirs: seq<Entry>, parent: Node, init: seq<Entry>, last: Entry)
    requires parent.Dir? && subdirs <= parent.subdirs && subdirs == init + [last]
    ensures last in parent.subdirs && init <= parent.subdirs
    ensures Flatten(WalkEach(root, subdirs, parent)) ==
      Flatten(WalkEach(root, init, parent)) + Flatten(Walk(PathJoin(root, last.name), last.node))
  {
    assert subdirs[..|subdirs| - 1] == init && subdirs[|subdirs| - 1] == last;
    assert last in parent.subdirs;
    FlattenConcat(WalkEach(root, init, parent), Walk(PathJoin(root, last.name), last.node));
  }

  /** The same for the walks of the subdirectories `subdirs` of `parent`. */
  lemma {:induction false} WalkEachFiles(root: string, subdirs: seq<Entry>, parent: Node, x: string)
    requires parent.Dir? && subdirs <= parent.subdirs
    ensures x in Flatten(WalkEach(root, subdirs, parent)) <==>
      exists e, rel :: e in subdirs && FileAt(e.node, rel) && x == Under(PathJoin(root, e.name), rel)
    decreases parent, 0, |subdirs|
  {
    if subdirs != [] {
      var init := subdirs[..|subdirs| - 1];
      var last := subdirs[|subdirs| - 1];
      var sub := PathJoin(root, last.name);
      assert subdirs == init + [last];
      WalkEachSnoc(root, subdirs, parent, init, last);
      WalkEachFiles(root, init, parent, x);
      WalkFiles(sub, last.node, x);
      if x in Flatten(WalkEach(root, subdirs, parent)) {
        if x in Flatten(WalkEach(root, init, parent)) {
          var e, rel :| e in init && FileAt(e.node, rel) && x == Under(PathJoin(root, e.name), rel);
          assert e in subdirs;
        } else {
          var rel :| FileAt(last.node, rel) && x == Under(sub, rel);
          assert last in subdirs;
        }
      }
      if exists e, rel :: e in subdirs && FileAt(e.node, rel) && x == Under(PathJoin(root, e.name), rel) {
        var e, rel :| e in subdirs && FileAt(e.node, rel) && x == Under(PathJoin(root, e.name), rel);
        if e != last {
          assert e in init;
        }
      }
    }
  }

  /** The recursive expansion of a directory is every file at every depth below it. */
  lemma RecursiveIsAllFiles(fs: Fs, p: string, x: string)
    requires IsDir(fs, p)
    ensures x in FilePaths(fs, p, true) <==> exists rel :: FileAt(fs[p], rel) && x == Under(p, rel)
  {
    WalkFiles(p, fs[p], x);
  }

  /**
   * A directory with files `x`, `y` and a subdirectory `z` holding `w`:
   * `x` and `y` without recursion, `z/w` as well with it.
   */
  lemma ExpansionExample()
    ensures var fs := map["/d" := Dir(["x", "y"], [Entry("z", Dir(["w"], []))])];
      FilePaths(fs, "/d", false) == ["/d/x", "/d/y"] &&
      FilePaths(fs, "/d", true) == ["/d/x", "/d/y", "/d/z/w"]
  {
    var sub := Dir(["w"], []);
    var top := Dir(["x", "y"], [Entry("z", sub)]);
    var fs := map["/d" := top];
    assert PathJoin("/d", "x") == "/d/x";
    assert PathJoin("/d", "y") == "/d/y";
    assert PathJoin("/d", "z") == "/d/z";
    assert PathJoin("/d/z", "w") == "/d/z/w";
    var s0, s1 := WalkStep("/d", ["x", "y"]), WalkStep("/d/z", ["w"]);
    assert Walk("/d/z", sub) == [s1] + WalkEach("/d/z", [], sub);
    assert [Entry("z", sub)][..0] == [];
    assert WalkEach("/d", [Entry("z", sub)], top) == [s1];
    var steps := WalkFrom(fs, "/d");
    assert steps == [s0, s1];
    assert JoinAll(s0) == ["/d/x", "/d/y"];
    assert JoinAll(s1) == ["/d/z/w"];
    assert [s0, s1][..1] == [s0];
    assert [s0][..0] == [];
    assert Flatten([s0]) == ["/d/x", "/d/y"];
  }
}
