/**
 * An abstract file system: the set of existing directories and the contents of every
 * existing regular file, with the two operations the editor performs on it,
 * os.makedirs(path, exist_ok=True) and open(path, 'a').
 *
 * A step that would raise an exception in the program yields None; a sequence of steps
 * stops at the first one that raises and keeps the effects of the steps before it.
 */
module FileSystem {
  import opened Wrappers

  /** A path as the sequence of its components; joining a name onto a directory appends it. */
  type Path = seq<string>

  function Join(dir: Path, name: string): Path {
    dir + [name]
  }

  /** The directories os.makedirs(p) makes sure of: every non-empty prefix of p, p itself included. */
  function Ancestry(p: Path): set<Path>
    decreases |p|
  {
    if p == [] then {} else Ancestry(p[..|p| - 1]) + {p}
  }

  /** The ancestry of p holds exactly the non-empty prefixes of p. */
  lemma {:induction false} AncestryIff(p: Path)
    ensures forall q :: q in Ancestry(p) <==> 0 < |q| <= |p| && q == p[..|q|]
    decreases |p|
  {
    if p != [] {
      var u := p[..|p| - 1];
      AncestryIff(u);
      forall q ensures q in Ancestry(p) <==> 0 < |q| <= |p| && q == p[..|q|] {
        if 0 < |q| < |p| {
          assert u[..|q|] == p[..|q|];
        } else if |q| == |p| {
          assert p[..|q|] == p;
        }
      }
    }
  }

  /** A path has one ancestor-or-self per component. */
  lemma {:induction false} AncestryCount(p: Path)
    ensures |Ancestry(p)| == |p|
    decreases |p|
  {
    if p != [] {
      var u := p[..|p| - 1];
      AncestryCount(u);
      AncestryIff(u);
    }
  }

  /** Joining a name onto p adds exactly the joined path to the ancestry. */
  lemma AncestryJoin(p: Path, n: string)
    ensures Ancestry(Join(p, n)) == Ancestry(p) + {Join(p, n)}
  {
    assert Join(p, n)[..|p|] == p;
  }

  /** Joining names one after another onto a directory appends them in order. */
  lemma Joined2(base: Path, x: string, y: string)
    ensures Join(Join(base, x), y) == base + [x, y]
  {
  }

  lemma Joined3(base: Path, x: string, y: string, z: string)
    ensures Join(Join(Join(base, x), y), z) == base + [x, y, z]
  {
  }

  lemma Joined4(base: Path, x: string, y: string, z: string, w: string)
    ensures Join(Join(Join(Join(base, x), y), z), w) == base + [x, y, z, w]
  {
  }

  /** The paths rel names, taken relative to base. */
  function Under(base: Path, rel: set<Path>): set<Path> {
    set r | r in rel :: base + r
  }

  /** Taking paths relative to a base keeps them apart, so it keeps their number. */
  lemma {:induction false} UnderCount(base: Path, rel: set<Path>)
    ensures |Under(base, rel)| == |rel|
    decreases |rel|
  {
    if rel == {} {
      assert Under(base, rel) == {};
    } else {
      var r :| r in rel;
      var rest := rel - {r};
      UnderCount(base, rest);
      assert Under(base, rel) == Under(base, rest) + {base + r};
      forall q | q in rest ensures base + q != base + r {
        assert (base + q)[|base|..] == q;
        assert (base + r)[|base|..] == r;
      }
    }
  }

  /** Relative paths that differ stay different below any base, and a non-empty one never names an ancestor of the base. */
  lemma UnderSeparates(base: Path, a: set<Path>, b: set<Path>)
    requires a !! b
    requires forall r :: r in b ==> r != []
    ensures Under(base, a) !! Under(base, b)
    ensures Ancestry(base) !! Under(base, b)
  {
    AncestryIff(base);
    forall q | q in Under(base, b) ensures q !in Under(base, a) && q !in Ancestry(base) {
      var r :| r in b && q == base + r;
      assert q[|base|..] == r;
    }
  }

  datatype Disk = Disk(dirs: set<Path>, files: map<Path, string>)

  /** What reading the file at p yields, a missing file reading as empty. */
  function Contents(d: Disk, p: Path): string {
    if p in d.files then d.files[p] else ""
  }

  /**
   * os.makedirs(p, exist_ok=True): raises on the empty path and when p or one of its
   * ancestors is a regular file; otherwise every missing directory on the way is created
   * and the existing ones are left alone.
   */
  function MakeDirs(d: Disk, p: Path): (r: Option<Disk>)
    ensures r.Some? <==> p != [] && forall q :: 0 < |q| && q <= p ==> q !in d.files
    ensures r.Some? ==> r.value.files == d.files
    ensures r.Some? ==> forall q :: q in r.value.dirs <==> q in d.dirs || (0 < |q| && q <= p)
  {
    AncestryIff(p);
    if p == [] || !(Ancestry(p) !! d.files.Keys) then None
    else Some(d.(dirs := d.dirs + Ancestry(p)))
  }

  /**
   * open(p, 'a') followed by write(text): raises on the empty path and when p is a
   * directory; otherwise a missing file is created, and text goes after the existing
   * contents, which are never truncated.
   */
  function AppendText(d: Disk, p: Path, text: string): (r: Option<Disk>)
    ensures r.Some? <==> p != [] && p !in d.dirs
    ensures r.Some? ==> r.value.dirs == d.dirs && r.value.files.Keys == d.files.Keys + {p}
    ensures r.Some? ==> Contents(d, p) <= r.value.files[p] && r.value.files[p][|Contents(d, p)|..] == text
    ensures r.Some? ==> forall q :: q in d.files && q != p ==> r.value.files[q] == d.files[q]
  {
    if p == [] || p in d.dirs then None
    else Some(d.(files := d.files[p := Contents(d, p) + text]))
  }

  /** One step of the scaffolder: a makedirs call, or an open in append mode that writes nothing. */
  datatype Step = EnsureDir(path: Path) | Touch(path: Path)

  function Apply(d: Disk, s: Step): Option<Disk> {
    match s
    case EnsureDir(p) => MakeDirs(d, p)
    case Touch(p) => AppendText(d, p, "")
  }

  /** The disk a run of steps leaves, and whether every step ran or one of them raised. */
  datatype Outcome = Done(disk: Disk) | Failed(disk: Disk)

  /** The directories and the files the steps ask for. */
  function DirsOf(steps: seq<Step>): set<Path> {
    if steps == [] then {}
    else (if steps[0].EnsureDir? then Ancestry(steps[0].path) else {}) + DirsOf(steps[1..])
  }

  function FilesOf(steps: seq<Step>): set<Path> {
    if steps == [] then {}
    else (if steps[0].Touch? then {steps[0].path} else {}) + FilesOf(steps[1..])
  }

  lemma StepSets(s: Step)
    ensures DirsOf([s]) == (if s.EnsureDir? then Ancestry(s.path) else {})
    ensures FilesOf([s]) == (if s.Touch? then {s.path} else {})
  {
    assert [s][1..] == [];
  }

  /** Runs the steps in order, stopping at the first that raises. */
  function Run(d: Disk, steps: seq<Step>): Outcome
    decreases steps
  {
    if steps == [] then Done(d)
    else match Apply(d, steps[0])
      case None => Failed(d)
      case Some(d1) => Run(d1, steps[1..])
  }

  /**
   * Whatever happens, a run only adds: the directories and the files grow, an existing
   * file keeps its contents, a new file is empty, and nothing appears that the steps did
   * not ask for.
   */
  lemma {:induction false} RunOnlyAdds(d: Disk, steps: seq<Step>)
    ensures d.dirs <= Run(d, steps).disk.dirs <= d.dirs + DirsOf(steps)
    ensures d.files.Keys <= Run(d, steps).disk.files.Keys <= d.files.Keys + FilesOf(steps)
    ensures forall p :: p in d.files ==> Run(d, steps).disk.files[p] == d.files[p]
    ensures forall p :: p in Run(d, steps).disk.files && p !in d.files ==> Run(d, steps).disk.files[p] == ""
    decreases steps
  {
    if steps != [] && Apply(d, steps[0]).Some? {
      RunOnlyAdds(Apply(d, steps[0]).value, steps[1..]);
    }
  }

  /** Running s first and then the rest. */
  lemma RunCons(d: Disk, s: Step, rest: seq<Step>)
    ensures Run(d, [s] + rest) == match Apply(d, s) case None => Failed(d) case Some(d1) => Run(d1, rest)
  {
    assert ([s] + rest)[1..] == rest;
  }

  lemma RunOne(d: Disk, s: Step)
    ensures Run(d, [s]) == match Apply(d, s) case None => Failed(d) case Some(d1) => Done(d1)
  {
    RunCons(d, s, []);
    assert [s] + [] == [s];
  }

  /** Once a prefix has run to completion, the rest continues from the disk it left. */
  lemma RunContinues(d: Disk, a: seq<Step>, b: seq<Step>, mid: Disk)
    requires Run(d, a) == Done(mid)
    ensures Run(d, a + b) == Run(mid, b)
  {
    RunAppend(d, a, b);
  }

  /** A step sequence that raises stops the whole run there, whatever would have followed. */
  lemma RunStops(d: Disk, a: seq<Step>, b: seq<Step>)
    requires Run(d, a).Failed?
    ensures Run(d, a + b) == Run(d, a)
  {
    RunAppend(d, a, b);
  }

  /** The step has had its effect on d: running it again changes nothing. */
  predicate Holds(d: Disk, s: Step) {
    match s
    case EnsureDir(p) => p != [] && Ancestry(p) <= d.dirs && Ancestry(p) !! d.files.Keys
    case Touch(p) => p != [] && p in d.files && p !in d.dirs
  }

  lemma ApplyEstablishes(d: Disk, s: Step)
    requires Apply(d, s).Some?
    ensures Holds(Apply(d, s).value, s)
  {
  }

  lemma HoldsIsFixpoint(d: Disk, s: Step)
    requires Holds(d, s)
    ensures Apply(d, s) == Some(d)
  {
    match s
    case EnsureDir(p) =>
      assert d.dirs + Ancestry(p) == d.dirs;
    case Touch(p) =>
      assert d.files[p] + "" == d.files[p];
      assert d.files[p := d.files[p]] == d.files;
  }

  /** A later step that succeeds never undoes an earlier step's effect. */
  lemma HoldsPreserved(d: Disk, s: Step, t: Step)
    requires Holds(d, s) && Apply(d, t).Some?
    ensures Holds(Apply(d, t).value, s)
  {
    var d' := Apply(d, t).value;
    match s
    case EnsureDir(p) =>
      if t.Touch? {
        assert t.path !in Ancestry(p);
      }
    case Touch(p) =>
      if t.EnsureDir? {
        assert p !in Ancestry(t.path);
      }
  }

  lemma {:induction false} RunPreservesHolds(d: Disk, s: Step, steps: seq<Step>)
    decreases steps
    requires Holds(d, s)
    ensures Holds(Run(d, steps).disk, s)
  {
    if steps != [] && Apply(d, steps[0]).Some? {
      HoldsPreserved(d, s, steps[0]);
      RunPreservesHolds(Apply(d, steps[0]).value, s, steps[1..]);
    }
  }

  /** After a complete run every directory and every file the steps ask for exists. */
  lemma {:induction false} RunCompleteHasAll(d: Disk, steps: seq<Step>)
    requires Run(d, steps).Done?
    ensures DirsOf(steps) <= Run(d, steps).disk.dirs
    ensures FilesOf(steps) <= Run(d, steps).disk.files.Keys
    decreases steps
  {
    if steps != [] {
      var d1 := Apply(d, steps[0]).value;
      RunOnlyAdds(d1, steps[1..]);
      RunCompleteHasAll(d1, steps[1..]);
    }
  }

  /** Running the same steps on the disk a run left reproduces that run exactly: nothing changes and the same step raises. */
  lemma {:induction false} RunIdempotent(d: Disk, steps: seq<Step>)
    decreases steps
    ensures Run(Run(d, steps).disk, steps) == Run(d, steps)
  {
    if steps != [] && Apply(d, steps[0]).Some? {
      var d1 := Apply(d, steps[0]).value;
      var last := Run(d1, steps[1..]).disk;
      RunIdempotent(d1, steps[1..]);
      ApplyEstablishes(d, steps[0]);
      RunPreservesHolds(d1, steps[0], steps[1..]);
      HoldsIsFixpoint(last, steps[0]);
    }
  }

  /** Running a + b is running a and then, if nothing raised, b. */
  lemma {:induction false} RunAppend(d: Disk, a: seq<Step>, b: seq<Step>)
    decreases a
    ensures Run(d, a + b) == if Run(d, a).Failed? then Run(d, a) else Run(Run(d, a).disk, b)
  {
    if a == [] {
      assert a + b == b;
    } else {
      assert (a + b)[1..] == a[1..] + b;
      if Apply(d, a[0]).Some? {
        RunAppend(Apply(d, a[0]).value, a[1..], b);
      }
    }
  }

  lemma {:induction false} DirsOfAppend(a: seq<Step>, b: seq<Step>)
    decreases a
    ensures DirsOf(a + b) == DirsOf(a) + DirsOf(b)
    ensures FilesOf(a + b) == FilesOf(a) + FilesOf(b)
  {
    if a != [] {
      assert (a + b)[1..] == a[1..] + b;
      DirsOfAppend(a[1..], b);
    } else {
      assert a + b == b;
    }
  }

  predicate NoEmptyPath(steps: seq<Step>) {
    forall i :: 0 <= i < |steps| ==> steps[i].path != []
  }

  lemma NoEmptyPathAppend(a: seq<Step>, b: seq<Step>)
    ensures NoEmptyPath(a + b) <==> NoEmptyPath(a) && NoEmptyPath(b)
  {
    if NoEmptyPath(a) && NoEmptyPath(b) {
      forall i | 0 <= i < |a + b| ensures (a + b)[i].path != [] {
        if i >= |a| { assert (a + b)[i] == b[i - |a|]; }
      }
    }
    if NoEmptyPath(a + b) {
      forall i | 0 <= i < |a| ensures a[i].path != [] {
        assert (a + b)[i] == a[i];
      }
      forall i | 0 <= i < |b| ensures b[i].path != [] {
        assert (a + b)[|a| + i] == b[i];
      }
    }
  }

  /**
   * A run of steps that never ask for a directory and a file at the same path completes
   * exactly when no path is empty, nothing asked for as a directory is a file on the disk,
   * and nothing asked for as a file is a directory on it.
   */
  lemma {:induction false} RunSucceedsIff(d: Disk, steps: seq<Step>)
    decreases steps
    requires DirsOf(steps) !! FilesOf(steps)
    ensures Run(d, steps).Done? <==>
      NoEmptyPath(steps) && DirsOf(steps) !! d.files.Keys && FilesOf(steps) !! d.dirs
  {
    if steps != [] {
      var s, rest := steps[0], steps[1..];
      assert steps == [s] + rest;
      DirsOfAppend([s], rest);
      assert NoEmptyPath(steps) <==> s.path != [] && NoEmptyPath(rest) by {
        if s.path != [] && NoEmptyPath(rest) {
          forall i | 0 <= i < |steps| ensures steps[i].path != [] {
            if i > 0 { assert steps[i] == rest[i - 1]; }
          }
        }
      }
      if Apply(d, s).Some? {
        var d1 := Apply(d, s).value;
        RunSucceedsIff(d1, rest);
      } else if s.EnsureDir? && s.path != [] {
        var q :| q in Ancestry(s.path) && q in d.files;
        assert q in DirsOf(steps);
      }
    }
  }
}
