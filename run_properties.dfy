/**
 * What a run of NewClass.php does as a whole: a missing flag stops it before
 * the disk is touched, a missing template ends it with a fatal error, the
 * disk and the output only ever grow, a run whose root is settled (a valid
 * `--path`, or one of the rejected names, which falls back to `tmp`) writes
 * each rendered template to its target, and running it a second time leaves
 * the disk as it was while warning about every file.
 */
module RunProperties {
  import opened PhpStrings
  import opened Arguments
  import opened Rendering
  import opened Layout
  import opened Scaffold

  // ---------------------------------------------------------------------
  // Stopping early
  // ---------------------------------------------------------------------

  /** A missing flag is reported, exits with code 1 and leaves the disk alone. */
  lemma MissingFlagStops(env: Env, w: World)
    requires FirstMissingFlag(env.args).Missing?
    ensures Run(env, w).status == Exited(MissingArgumentExit)
    ensures Run(env, w).output == w.output + [MissingArgument(FirstMissingFlag(env.args).flag)]
    ensures Run(env, w).dirs == w.dirs && Run(env, w).files == w.files
  {
  }

  /** The key under which the `k`-th template file is looked up. */
  function TemplateKey(env: Env, k: nat): string
    requires k < |TemplateNames|
  {
    Normalize(TemplateFilePath(env.toolDir, TemplateNames[k]))
  }

  /** The target of the `k`-th template under a given state of the directories. */
  function Target(env: Env, dirs: set<string>, k: nat): string
    requires k < |TemplateNames|
  {
    PathForFile(env.args, dirs, env.toolDir, TemplateNames[k])
  }

  /** `templatePaths` pairs each template with its key once the file is there. */
  lemma TemplatePathsFound(env: Env, files: map<string, string>, k: nat)
    requires k < |TemplateNames| && TemplateKey(env, k) in files
    ensures TemplatePaths(files, env.toolDir)[k] == (TemplateNames[k], TemplateKey(env, k))
  {
    NormalizeShape(TemplateFilePath(env.toolDir, TemplateNames[k]));
  }

  /**
   * A step on a known template keeps the process running when its file was
   * found, and ends it with the fatal error, writing nothing, when it was not.
   */
  lemma KnownTemplateStep(env: Env, v: World, t: (string, string))
    requires v.status == Running && t.0 in TemplateNames
    ensures TemplateProcessed(env, v, t).status == if t.1 == "" then Exited(FatalErrorExit) else Running
    ensures t.1 == "" ==> TemplateProcessed(env, v, t).files == v.files
  {
    var root := RootDirectoryPath(env.args, v.dirs, env.toolDir);
    assert root != "";
    assert |PathForFile(env.args, v.dirs, env.toolDir, t.0)| >= 2;
  }

  /**
   * When the TestTrait template is missing the run ends in a fatal error
   * (`file_get_contents("")`) before any file is written.
   */
  lemma MissingTemplateIsFatal(env: Env, w: World)
    requires w.status == Running && FirstMissingFlag(env.args) == Complete
    requires TemplateKey(env, 0) !in w.files
    ensures Run(env, w).status == Exited(FatalErrorExit)
    ensures Run(env, w).files == w.files
  {
    var e := ExpectedDirectoriesEnsured(env, w);
    var ts := TemplatePaths(e.files, env.toolDir);
    assert ts[0] == ("TestTrait.php", "");
    KnownTemplateStep(env, e, ts[0]);
    var w1 := TemplateProcessed(env, e, ts[0]);
    assert TemplatesFrom(env, w1, ts, 1) == w1;
  }

  /** Some template from the `i`-th on was not found. */
  predicate SomeMissing(ts: seq<(string, string)>, i: nat) {
    exists k :: i <= k < |ts| && ts[k].1 == ""
  }

  /** From the `i`-th known template on, the loop ends with the fatal error exactly when one of them was not found. */
  lemma {:induction false} TemplatesFromStatus(env: Env, v: World, ts: seq<(string, string)>, i: nat)
    requires v.status == Running && i <= |ts|
    requires forall k :: 0 <= k < |ts| ==> ts[k].0 in TemplateNames
    ensures TemplatesFrom(env, v, ts, i).status == if SomeMissing(ts, i) then Exited(FatalErrorExit) else Running
    decreases |ts| - i
  {
    if i < |ts| {
      var u := TemplateProcessed(env, v, ts[i]);
      KnownTemplateStep(env, v, ts[i]);
      if ts[i].1 == "" {
        assert SomeMissing(ts, i);
        assert TemplatesFrom(env, u, ts, i + 1) == u;
      } else {
        TemplatesFromStatus(env, u, ts, i + 1);
        assert SomeMissing(ts, i) == SomeMissing(ts, i + 1) by {
          if SomeMissing(ts, i) {
            var k :| i <= k < |ts| && ts[k].1 == "";
            assert k != i;
          }
        }
      }
    }
  }

  /**
   * With all flags given, on any disk and under any root, valid or not, a
   * run keeps going to the end exactly when all four template files are
   * there; otherwise the first missing one ends it with the fatal error.
   */
  lemma RunStatus(env: Env, w: World)
    requires w.status == Running && FirstMissingFlag(env.args) == Complete
    ensures Run(env, w).status == Running <==> forall k :: 0 <= k < 4 ==> TemplateKey(env, k) in w.files
    ensures Run(env, w).status != Running ==> Run(env, w).status == Exited(FatalErrorExit)
  {
    var e := ExpectedDirectoriesEnsured(env, w);
    var ts := TemplatePaths(e.files, env.toolDir);
    forall k | 0 <= k < 4 ensures (ts[k].1 == "") == (TemplateKey(env, k) !in w.files) {
      NormalizeShape(TemplateFilePath(env.toolDir, TemplateNames[k]));
    }
    TemplatesFromStatus(env, e, ts, 0);
    if !(forall k :: 0 <= k < 4 ==> TemplateKey(env, k) in w.files) {
      var k :| 0 <= k < 4 && TemplateKey(env, k) !in w.files;
      assert ts[k].1 == "";
    }
  }

  // ---------------------------------------------------------------------
  // A run only adds
  // ---------------------------------------------------------------------

  /** A world `v` extends `w`: directories, file names and output are kept. */
  predicate Extends(w: World, v: World) {
    w.dirs <= v.dirs && w.files.Keys <= v.files.Keys && w.output <= v.output
  }

  /** One template step only adds. */
  lemma TemplateProcessedExtends(env: Env, w: World, t: (string, string))
    ensures Extends(w, TemplateProcessed(env, w, t))
  {
  }

  /** The template loop only adds. */
  lemma {:induction false} TemplatesFromExtends(env: Env, w: World, ts: seq<(string, string)>, i: nat)
    ensures Extends(w, TemplatesFrom(env, w, ts, i))
    decreases |ts| - i
  {
    if i < |ts| && w.status == Running {
      var v := TemplateProcessed(env, w, ts[i]);
      TemplateProcessedExtends(env, w, ts[i]);
      TemplatesFromExtends(env, v, ts, i + 1);
    }
  }

  /** A run never removes a directory or a file and never takes back output. */
  lemma RunExtends(env: Env, w: World)
    ensures Extends(w, Run(env, w))
  {
    var w1 := Validated(env, w);
    if w1.status == Running {
      var e := ExpectedDirectoriesEnsured(env, w1);
      TemplatesFromExtends(env, e, TemplatePaths(e.files, env.toolDir), 0);
    }
  }

  /** A quadrant step only appends to the output, starting with the root warning when the root is invalid. */
  lemma QuadrantAppends(env: Env, w: World, testsOrSrc: string, interfaceOrClass: string)
    ensures w.output <= QuadrantEnsured(env, w, testsOrSrc, interfaceOrClass).output
    ensures !RootPathIsValid(GetArgument(env.args, "path"), w.dirs) ==>
      |QuadrantEnsured(env, w, testsOrSrc, interfaceOrClass).output| > |w.output|
      && QuadrantEnsured(env, w, testsOrSrc, interfaceOrClass).output[|w.output|]
         == RootFallback(GetArgument(env.args, "path"), TmpDirectory(env.toolDir))
  {
  }

  /** An invalid --path is warned about first, with the fallback that replaces it. */
  lemma FallbackWarnedFirst(env: Env, w: World)
    requires w.status == Running && FirstMissingFlag(env.args) == Complete
    requires !RootPathIsValid(GetArgument(env.args, "path"), w.dirs)
    ensures |Run(env, w).output| > |w.output|
    ensures Run(env, w).output[|w.output|] == RootFallback(GetArgument(env.args, "path"), TmpDirectory(env.toolDir))
  {
    var q1 := QuadrantEnsured(env, w, "tests", "interfaces");
    var q2 := QuadrantEnsured(env, q1, "tests", "classes");
    var q3 := QuadrantEnsured(env, q2, "src", "interfaces");
    var e := QuadrantEnsured(env, q3, "src", "classes");
    QuadrantAppends(env, w, "tests", "interfaces");
    QuadrantAppends(env, q1, "tests", "classes");
    QuadrantAppends(env, q2, "src", "interfaces");
    QuadrantAppends(env, q3, "src", "classes");
    assert e == ExpectedDirectoriesEnsured(env, w);
    TemplatesFromExtends(env, e, TemplatePaths(e.files, env.toolDir), 0);
    var r := Run(env, w);
    assert w.output <= q1.output <= q2.output <= q3.output <= e.output <= r.output;
    assert r.output[|w.output|] == q1.output[|w.output|];
  }

  // ---------------------------------------------------------------------
  // Files
  // ---------------------------------------------------------------------

  /**
   * `createNewFile` leaves the content at the path whether or not a file was
   * there, touches no other path, and warns exactly when something exists;
   * a directory at the path stays a directory and takes no content.
   */
  lemma FileWrittenStores(w: World, path: string, content: string)
    ensures var r := FileWritten(w, path, content);
      r.dirs == w.dirs && r.status == w.status
      && (Normalize(path) !in w.dirs ==> Normalize(path) in r.files && r.files[Normalize(path)] == content)
      && (Normalize(path) in w.dirs ==> r.files == w.files)
      && (forall x :: x != Normalize(path) ==> (x in r.files <==> x in w.files))
      && (forall x :: x != Normalize(path) && x in w.files ==> r.files[x] == w.files[x])
      && r.output == w.output + (if FileExists(w.dirs, w.files, path) then [FileAlreadyExists(path)] else []) + [Writing(path)]
  {
  }

  /** Writing the same content again changes no file, and only adds the warning and the notice. */
  lemma FileWrittenTwice(w: World, path: string, content: string)
    ensures var r := FileWritten(w, path, content);
      FileWritten(r, path, content).files == r.files
      && FileWritten(r, path, content).output == r.output + [FileAlreadyExists(path), Writing(path)]
  {
  }

  // ---------------------------------------------------------------------
  // Directories
  // ---------------------------------------------------------------------

  /**
   * `createDirectoryIfItDoesNotExist` leaves a directory there, adds only its
   * lineage, leaves every directory it adds with its own ancestors, changes
   * nothing when the directory exists and is idempotent.
   */
  lemma DirectoryEnsuredMakes(w: World, p: string)
    ensures IsDir(DirectoryEnsured(w, p).dirs, p)
    ensures w.dirs <= DirectoryEnsured(w, p).dirs <= w.dirs + Lineage(Normalize(p))
    ensures forall d :: d in DirectoryEnsured(w, p).dirs - w.dirs ==> Lineage(d) <= DirectoryEnsured(w, p).dirs
    ensures DirectoryEnsured(w, p).files == w.files && DirectoryEnsured(w, p).status == w.status
    ensures DirectoryEnsured(w, p).output == w.output + (if IsDir(w.dirs, p) then [] else [CreatingDirectory(p)])
    ensures IsDir(w.dirs, p) ==> DirectoryEnsured(w, p) == w
    ensures DirectoryEnsured(DirectoryEnsured(w, p), p) == DirectoryEnsured(w, p)
  {
    var r := DirectoryEnsured(w, p);
    var np := Normalize(p);
    forall d | d in r.dirs - w.dirs ensures Lineage(d) <= r.dirs {
      if d != np {
        var i :| 0 < i < |np| && np[i] == '/' && d == np[..i];
        LineageOfPrefix(np, i);
      }
    }
  }

  /** The first directory level of the `k`-th quadrant: "tests" twice, then "src" twice. */
  function TestsOrSrc(k: nat): string {
    if k < 2 then "tests" else "src"
  }

  /** The second directory level of the `k`-th quadrant: "interfaces" and "classes" in turn. */
  function InterfaceOrClass(k: nat): string {
    if k % 2 == 0 then "interfaces" else "classes"
  }

  /** The directory of the `k`-th quadrant under a given state of the directories. */
  function Quadrant(env: Env, dirs: set<string>, k: nat): string {
    DirectoryPath(env.args, dirs, env.toolDir, TestsOrSrc(k), InterfaceOrClass(k))
  }

  /**
   * Once the root is settled, a quadrant step prints what the root prints
   * and ensures the directory computed under any earlier state; under a
   * valid root it prints nothing of its own.
   */
  lemma QuadrantStep(env: Env, v: World, dirs: set<string>, k: nat)
    requires dirs <= v.dirs && RootSettled(GetArgument(env.args, "path"), dirs)
    ensures QuadrantEnsured(env, v, TestsOrSrc(k), InterfaceOrClass(k))
         == DirectoryEnsured(Announce(v, RootNotices(env, dirs)), Quadrant(env, dirs, k))
    ensures RootPathIsValid(GetArgument(env.args, "path"), dirs) ==>
      QuadrantEnsured(env, v, TestsOrSrc(k), InterfaceOrClass(k)) == DirectoryEnsured(v, Quadrant(env, dirs, k))
  {
    RootDirectoryPathStable(env.args, dirs, v.dirs, env.toolDir);
    assert RootNotices(env, v.dirs) == RootNotices(env, dirs);
    assert Announce(v, []) == v by {
      assert v.output + [] == v.output;
    }
  }

  /** A directory stays one while directories are only added. */
  lemma IsDirMonotone(dirs: set<string>, more: set<string>, p: string)
    requires dirs <= more && IsDir(dirs, p)
    ensures IsDir(more, p)
  {
  }

  /**
   * The four directory steps, each printing the root's notices `ns` and then
   * doing `createDirectoryIfItDoesNotExist` on the quadrant computed at the start.
   */
  function Ensured(w: World, q: seq<string>, ns: seq<Notice>, k: nat): World
    requires k <= |q|
  {
    if k == 0 then w else DirectoryEnsured(Announce(Ensured(w, q, ns, k - 1), ns), q[k - 1])
  }

  /** The quadrants of a root, in the order they are created. */
  function Quadrants(env: Env, dirs: set<string>): (q: seq<string>)
    ensures |q| == 4 && forall k :: 0 <= k < 4 ==> q[k] == Quadrant(env, dirs, k)
  {
    [Quadrant(env, dirs, 0), Quadrant(env, dirs, 1), Quadrant(env, dirs, 2), Quadrant(env, dirs, 3)]
  }

  /** Each directory step keeps the files and the status and only adds directories and output. */
  lemma {:induction false} EnsuredGrows(w: World, q: seq<string>, ns: seq<Notice>, k: nat)
    requires k <= |q|
    ensures w.dirs <= Ensured(w, q, ns, k).dirs && w.output <= Ensured(w, q, ns, k).output
    ensures Ensured(w, q, ns, k).files == w.files && Ensured(w, q, ns, k).status == w.status
  {
    if k > 0 {
      EnsuredGrows(w, q, ns, k - 1);
    }
  }

  /**
   * Under a settled root `createExpectedDirectories` is the four directory
   * steps on the quadrants of the start, each after the root's notices.
   */
  lemma ExpectedDirectoriesChain(env: Env, w: World)
    requires RootSettled(GetArgument(env.args, "path"), w.dirs)
    ensures ExpectedDirectoriesEnsured(env, w) == Ensured(w, Quadrants(env, w.dirs), RootNotices(env, w.dirs), 4)
  {
    var q := Quadrants(env, w.dirs);
    var ns := RootNotices(env, w.dirs);
    var w1 := QuadrantEnsured(env, w, "tests", "interfaces");
    QuadrantStep(env, w, w.dirs, 0);
    assert w1 == Ensured(w, q, ns, 1);
    EnsuredGrows(w, q, ns, 1);
    var w2 := QuadrantEnsured(env, w1, "tests", "classes");
    QuadrantStep(env, w1, w.dirs, 1);
    assert w2 == Ensured(w, q, ns, 2);
    EnsuredGrows(w, q, ns, 2);
    var w3 := QuadrantEnsured(env, w2, "src", "interfaces");
    QuadrantStep(env, w2, w.dirs, 2);
    assert w3 == Ensured(w, q, ns, 3);
    EnsuredGrows(w, q, ns, 3);
    QuadrantStep(env, w3, w.dirs, 3);
  }

  /** After `k` steps the first `k` directories exist. */
  lemma {:induction false} EnsuredMakes(w: World, q: seq<string>, ns: seq<Notice>, k: nat, j: nat)
    requires j < k <= |q|
    ensures IsDir(Ensured(w, q, ns, k).dirs, q[j])
  {
    var v := Ensured(w, q, ns, k - 1);
    if j < k - 1 {
      EnsuredMakes(w, q, ns, k - 1, j);
      IsDirMonotone(v.dirs, Ensured(w, q, ns, k).dirs, q[j]);
    }
  }

  /** The directories `mkdir` may add for the first `k` paths. */
  function Lineages(q: seq<string>, k: nat): set<string>
    requires k <= |q|
  {
    if k == 0 then {} else Lineages(q, k - 1) + Lineage(Normalize(q[k - 1]))
  }

  /** After `k` steps no directory outside the lineages of the first `k` paths has been added. */
  lemma {:induction false} EnsuredAddsLineages(w: World, q: seq<string>, ns: seq<Notice>, k: nat)
    requires k <= |q|
    ensures Ensured(w, q, ns, k).dirs <= w.dirs + Lineages(q, k)
  {
    if k > 0 {
      EnsuredAddsLineages(w, q, ns, k - 1);
      DirectoryEnsuredMakes(Announce(Ensured(w, q, ns, k - 1), ns), q[k - 1]);
    }
  }

  /** After `k` steps the only new output is the root's notices and one creation notice per directory made. */
  lemma {:induction false} EnsuredAnnounces(w: World, q: seq<string>, ns: seq<Notice>, k: nat)
    requires k <= |q|
    ensures w.output <= Ensured(w, q, ns, k).output
    ensures forall i :: |w.output| <= i < |Ensured(w, q, ns, k).output| ==>
      (exists j :: 0 <= j < k && Ensured(w, q, ns, k).output[i] == CreatingDirectory(q[j]))
      || Ensured(w, q, ns, k).output[i] in ns
  {
    if k > 0 {
      EnsuredAnnounces(w, q, ns, k - 1);
      var v := Ensured(w, q, ns, k - 1);
      var a := Announce(v, ns);
      DirectoryEnsuredMakes(a, q[k - 1]);
      var u := Ensured(w, q, ns, k);
      forall i | |w.output| <= i < |u.output|
        ensures (exists j :: 0 <= j < k && u.output[i] == CreatingDirectory(q[j])) || u.output[i] in ns
      {
        if i < |v.output| {
          assert u.output[i] == v.output[i];
          if v.output[i] !in ns {
            var j :| 0 <= j < k - 1 && v.output[i] == CreatingDirectory(q[j]);
          }
        } else if i < |a.output| {
          assert u.output[i] == ns[i - |v.output|];
        } else {
          assert u.output[i] == CreatingDirectory(q[k - 1]);
        }
      }
    }
  }

  /**
   * `createExpectedDirectories` under a settled root (a valid one, or one of
   * the rejected names, which falls back to `tmp`): all four directories
   * exist afterwards, only their lineages are added, the files and the
   * status are kept, and the only output is the root's warning and one
   * creation notice per directory made.
   */
  lemma ExpectedDirectoriesMade(env: Env, w: World)
    requires RootSettled(GetArgument(env.args, "path"), w.dirs)
    ensures var e := ExpectedDirectoriesEnsured(env, w);
      var q := Quadrants(env, w.dirs);
      (forall k :: 0 <= k < 4 ==> IsDir(e.dirs, q[k]))
      && w.dirs <= e.dirs <= w.dirs + Lineages(q, 4)
      && e.files == w.files && e.status == w.status
      && w.output <= e.output
      && (forall i :: |w.output| <= i < |e.output| ==>
            (exists k :: 0 <= k < 4 && e.output[i] == CreatingDirectory(q[k])) || e.output[i] in RootNotices(env, w.dirs))
  {
    var q := Quadrants(env, w.dirs);
    var ns := RootNotices(env, w.dirs);
    ExpectedDirectoriesChain(env, w);
    forall k | 0 <= k < 4 ensures IsDir(Ensured(w, q, ns, 4).dirs, q[k]) {
      EnsuredMakes(w, q, ns, 4, k);
    }
    EnsuredAddsLineages(w, q, ns, 4);
    EnsuredAnnounces(w, q, ns, 4);
  }

  // ---------------------------------------------------------------------
  // A run that succeeds
  // ---------------------------------------------------------------------

  /**
   * The conditions of a clean run: all flags given, a settled --path (valid,
   * or one of the rejected names), the four templates present, no target
   * that is a template file, and no target that is a directory once the
   * directories have been created.
   */
  predicate Ready(env: Env, w: World) {
    w.status == Running && FirstMissingFlag(env.args) == Complete
    && RootSettled(GetArgument(env.args, "path"), w.dirs)
    && (forall k :: 0 <= k < 4 ==> TemplateKey(env, k) in w.files)
    && (forall k, j :: 0 <= k < 4 && 0 <= j < 4 ==> Normalize(Target(env, w.dirs, k)) != TemplateKey(env, j))
    && (forall k :: 0 <= k < 4 ==> Normalize(Target(env, w.dirs, k)) !in ExpectedDirectoriesEnsured(env, w).dirs)
  }

  /** The rendered `k`-th template. */
  function Contents(env: Env, files: map<string, string>, k: nat): string
    requires k < 4 && TemplateKey(env, k) in files
  {
    Render(files[TemplateKey(env, k)], env.args)
  }

  /** The four targets under a given state of the directories. */
  function Targets(env: Env, dirs: set<string>): (t: seq<string>)
    ensures |t| == 4 && forall k :: 0 <= k < 4 ==> t[k] == Target(env, dirs, k)
  {
    seq(4, k requires 0 <= k < 4 => Target(env, dirs, k))
  }

  /** What `determineAppropriatePathForFile` prints for a known template: two root evaluations. */
  function TargetNotices(env: Env, dirs: set<string>): seq<Notice> {
    RootNotices(env, dirs) + RootNotices(env, dirs)
  }

  /** The first `k` writes of a run, each as `createNewFile` after the notices `ns` of its target. */
  function Written(w: World, t: seq<string>, c: seq<string>, ns: seq<Notice>, k: nat): World
    requires k <= |t| && k <= |c|
  {
    if k == 0 then w else FileWritten(Announce(Written(w, t, c, ns, k - 1), ns), t[k - 1], c[k - 1])
  }

  /** Writes keep the directories and the status, and leave every other key alone. */
  lemma {:induction false} WrittenKeeps(w: World, t: seq<string>, c: seq<string>, ns: seq<Notice>, k: nat, x: string)
    requires k <= |t| && k <= |c|
    requires forall j :: 0 <= j < k ==> Normalize(t[j]) != x
    ensures Written(w, t, c, ns, k).dirs == w.dirs && Written(w, t, c, ns, k).status == w.status
    ensures (x in Written(w, t, c, ns, k).files) == (x in w.files)
    ensures x in w.files ==> Written(w, t, c, ns, k).files[x] == w.files[x]
  {
    if k > 0 {
      WrittenKeeps(w, t, c, ns, k - 1, x);
    }
  }

  /**
   * A template step of a clean run is the write of its rendered template to
   * its target, after the notices of the two root evaluations.
   */
  lemma CleanStep(env: Env, v: World, dirs: set<string>, ts: seq<(string, string)>, k: nat)
    requires k < 4 && |ts| == 4
    requires dirs <= v.dirs && RootSettled(GetArgument(env.args, "path"), dirs)
    requires v.status == Running
    requires ts[k] == (TemplateNames[k], TemplateKey(env, k)) && TemplateKey(env, k) in v.files
    ensures TemplateProcessed(env, v, ts[k])
         == FileWritten(Announce(v, TargetNotices(env, dirs)), Target(env, dirs, k), Contents(env, v.files, k))
  {
    RootDirectoryPathStable(env.args, dirs, v.dirs, env.toolDir);
    var target := PathForFile(env.args, v.dirs, env.toolDir, ts[k].0);
    assert target == Target(env, dirs, k);
    assert |target| >= 14;
    assert RootNotices(env, v.dirs) == RootNotices(env, dirs);
    assert PathNotices(env, v.dirs, ts[k].0) == TargetNotices(env, dirs);
    NormalizeShape(TemplateFilePath(env.toolDir, TemplateNames[k]));
  }

  /** The `i`-th template step of a clean loop is the `i`-th write. */
  lemma CleanLoopStep(env: Env, e: World, ts: seq<(string, string)>, t: seq<string>, c: seq<string>,
                      ns: seq<Notice>, i: nat)
    requires i < 4 && |ts| == 4 && |t| == 4 && |c| == 4
    requires e.status == Running && RootSettled(GetArgument(env.args, "path"), e.dirs)
    requires ns == TargetNotices(env, e.dirs)
    requires ts[i] == (TemplateNames[i], TemplateKey(env, i)) && TemplateKey(env, i) in e.files
    requires t[i] == Target(env, e.dirs, i) && c[i] == Contents(env, e.files, i)
    requires forall j :: 0 <= j < 4 ==> Normalize(t[j]) != TemplateKey(env, i)
    ensures TemplateProcessed(env, Written(e, t, c, ns, i), ts[i]) == Written(e, t, c, ns, i + 1)
  {
    var v := Written(e, t, c, ns, i);
    WrittenKeeps(e, t, c, ns, i, TemplateKey(env, i));
    CleanStep(env, v, e.dirs, ts, i);
  }

  /** From the `i`-th template on, a clean run performs the remaining writes. */
  lemma {:induction false} CleanLoop(env: Env, e: World, ts: seq<(string, string)>, t: seq<string>, c: seq<string>,
                                     ns: seq<Notice>, i: nat)
    requires i <= 4 && |ts| == 4 && |t| == 4 && |c| == 4
    requires e.status == Running && RootSettled(GetArgument(env.args, "path"), e.dirs)
    requires ns == TargetNotices(env, e.dirs)
    requires forall k :: 0 <= k < 4 ==> ts[k] == (TemplateNames[k], TemplateKey(env, k)) && TemplateKey(env, k) in e.files
    requires forall k :: 0 <= k < 4 ==> t[k] == Target(env, e.dirs, k) && c[k] == Contents(env, e.files, k)
    requires forall k, j :: 0 <= k < 4 && 0 <= j < 4 ==> Normalize(t[j]) != TemplateKey(env, k)
    ensures TemplatesFrom(env, Written(e, t, c, ns, i), ts, i) == Written(e, t, c, ns, 4)
    decreases 4 - i
  {
    if i < 4 {
      WrittenKeeps(e, t, c, ns, i, TemplateKey(env, i));
      CleanLoopStep(env, e, ts, t, c, ns, i);
      CleanLoop(env, e, ts, t, c, ns, i + 1);
    }
  }

  /** The files after the four writes of a clean run. */
  lemma FourWrites(w: World, t: seq<string>, c: seq<string>, ns: seq<Notice>)
    requires |t| == 4 && |c| == 4
    requires forall k :: 0 <= k < 4 ==> Normalize(t[k]) !in w.dirs
    ensures Written(w, t, c, ns, 4).files
         == w.files[Normalize(t[0]) := c[0]][Normalize(t[1]) := c[1]][Normalize(t[2]) := c[2]][Normalize(t[3]) := c[3]]
    ensures Written(w, t, c, ns, 4).dirs == w.dirs && Written(w, t, c, ns, 4).status == w.status
    ensures Written(w, t, c, ns, 4).output == w.output
      + ns + WriteNotices(w.dirs, Written(w, t, c, ns, 0).files, t[0])
      + ns + WriteNotices(w.dirs, Written(w, t, c, ns, 1).files, t[1])
      + ns + WriteNotices(w.dirs, Written(w, t, c, ns, 2).files, t[2])
      + ns + WriteNotices(w.dirs, Written(w, t, c, ns, 3).files, t[3])
  {
    assert Written(w, t, c, ns, 1).dirs == w.dirs;
    assert Written(w, t, c, ns, 2).dirs == w.dirs;
    assert Written(w, t, c, ns, 3).dirs == w.dirs;
  }

  /** The rendered templates, in template order. */
  function ContentsOf(env: Env, files: map<string, string>): (c: seq<string>)
    requires forall k :: 0 <= k < 4 ==> TemplateKey(env, k) in files
    ensures |c| == 4 && forall k :: 0 <= k < 4 ==> c[k] == Contents(env, files, k)
  {
    seq(4, k requires 0 <= k < 4 => Contents(env, files, k))
  }

  /** A clean run makes the directories, then performs the four writes, each after its target's notices. */
  lemma CleanRunWritten(env: Env, w: World)
    requires Ready(env, w)
    ensures Run(env, w)
         == Written(ExpectedDirectoriesEnsured(env, w), Targets(env, w.dirs), ContentsOf(env, w.files), TargetNotices(env, w.dirs), 4)
  {
    var e := ExpectedDirectoriesEnsured(env, w);
    SettledLayout(env, w.dirs, e.dirs);
    var ts := TemplatePaths(e.files, env.toolDir);
    forall k | 0 <= k < 4 ensures ts[k] == (TemplateNames[k], TemplateKey(env, k)) {
      TemplatePathsFound(env, e.files, k);
    }
    CleanLoop(env, e, ts, Targets(env, w.dirs), ContentsOf(env, w.files), TargetNotices(env, w.dirs), 0);
  }

  /**
   * A clean run: the directories are those `createExpectedDirectories`
   * leaves, every target holds its rendered template (a later write to the
   * same file would win), the process keeps running, and after the directory
   * notices the output has, per template in template order, the notices of
   * the two root evaluations and its write notice, preceded by a warning
   * when something was already there.
   */
  lemma CleanRun(env: Env, w: World)
    requires Ready(env, w)
    ensures var r := Run(env, w);
      var e := ExpectedDirectoriesEnsured(env, w);
      var t := Targets(env, w.dirs);
      var ns := TargetNotices(env, w.dirs);
      var f1 := w.files[Normalize(t[0]) := Contents(env, w.files, 0)];
      var f2 := f1[Normalize(t[1]) := Contents(env, w.files, 1)];
      var f3 := f2[Normalize(t[2]) := Contents(env, w.files, 2)];
      r.status == Running && r.dirs == e.dirs
      && r.files == f3[Normalize(t[3]) := Contents(env, w.files, 3)]
      && r.output == e.output + ns + WriteNotices(e.dirs, w.files, t[0]) + ns + WriteNotices(e.dirs, f1, t[1])
           + ns + WriteNotices(e.dirs, f2, t[2]) + ns + WriteNotices(e.dirs, f3, t[3])
  {
    var e := ExpectedDirectoriesEnsured(env, w);
    CleanRunWritten(env, w);
    FourWrites(e, Targets(env, w.dirs), ContentsOf(env, w.files), TargetNotices(env, w.dirs));
  }

  /** Four updates at four different keys can each be read back. */
  lemma UpdatesDistinct<K, V>(m: map<K, V>, n: seq<K>, c: seq<V>, r: map<K, V>)
    requires |n| == 4 && |c| == 4
    requires forall i, j :: 0 <= i < j < 4 ==> n[i] != n[j]
    requires r == m[n[0] := c[0]][n[1] := c[1]][n[2] := c[2]][n[3] := c[3]]
    ensures forall k :: 0 <= k < 4 ==> n[k] in r && r[n[k]] == c[k]
  {
    assert n[0] != n[1] && n[0] != n[2] && n[0] != n[3] && n[1] != n[2] && n[1] != n[3] && n[2] != n[3];
  }

  /** After a clean run each target holds its own rendered template: no write overwrites another. */
  lemma CleanRunStores(env: Env, w: World)
    requires Ready(env, w)
    ensures var t := Targets(env, w.dirs);
      forall k :: 0 <= k < 4 ==>
           Normalize(t[k]) in Run(env, w).files && Run(env, w).files[Normalize(t[k])] == Contents(env, w.files, k)
  {
    CleanRunFiles(env, w);
    TargetKeysDistinct(env, w.dirs);
    TargetsStored(w.files, Targets(env, w.dirs), ContentsOf(env, w.files), Run(env, w).files);
  }

  /** Files updated at four paths with distinct keys hold the four contents. */
  lemma TargetsStored(files: map<string, string>, t: seq<string>, c: seq<string>, r: map<string, string>)
    requires |t| == 4 && |c| == 4
    requires forall i, j :: 0 <= i < j < 4 ==> Normalize(t[i]) != Normalize(t[j])
    requires r == files[Normalize(t[0]) := c[0]][Normalize(t[1]) := c[1]][Normalize(t[2]) := c[2]][Normalize(t[3]) := c[3]]
    ensures forall k :: 0 <= k < 4 ==> Normalize(t[k]) in r && r[Normalize(t[k])] == c[k]
  {
    var n := seq(4, k requires 0 <= k < 4 => Normalize(t[k]));
    UpdatesDistinct(files, n, c, r);
  }

  /** A clean run keeps running and leaves the directories `createExpectedDirectories` made. */
  lemma CleanRunDirs(env: Env, w: World)
    requires Ready(env, w)
    ensures Run(env, w).status == Running && Run(env, w).dirs == ExpectedDirectoriesEnsured(env, w).dirs
  {
    CleanRun(env, w);
  }

  /** The files after a clean run, as four updates. */
  lemma CleanRunFiles(env: Env, w: World)
    requires Ready(env, w)
    ensures var t := Targets(env, w.dirs);
      var c := ContentsOf(env, w.files);
      Run(env, w).files == w.files[Normalize(t[0]) := c[0]][Normalize(t[1]) := c[1]][Normalize(t[2]) := c[2]][Normalize(t[3]) := c[3]]
  {
    CleanRun(env, w);
  }

  /** The four targets are stored under four different keys. */
  lemma TargetKeysDistinct(env: Env, dirs: set<string>)
    ensures var t := Targets(env, dirs);
      forall i, j :: 0 <= i < j < 4 ==> Normalize(t[i]) != Normalize(t[j])
  {
    forall i, j | 0 <= i < j < 4 ensures Normalize(Target(env, dirs, i)) != Normalize(Target(env, dirs, j)) {
      TargetsDistinct(env.args, dirs, env.toolDir, i, j);
    }
  }

  /**
   * Under one of the rejected names `createExpectedDirectories` makes the
   * four quadrants inside `tmp` beside the script.
   */
  lemma FallbackDirectories(env: Env, w: World)
    requires GetArgument(env.args, "path") in ForbiddenRoots
    ensures var q := Quadrants(env, w.dirs);
      forall k :: 0 <= k < 4 ==>
        TmpDirectory(env.toolDir) + "/" <= q[k] && IsDir(ExpectedDirectoriesEnsured(env, w).dirs, q[k])
  {
    ForbiddenRootsRejected(env.args, w.dirs, env.toolDir);
    ExpectedDirectoriesMade(env, w);
  }

  /** Under one of the rejected names every target lies inside `tmp` beside the script. */
  lemma FallbackTargets(env: Env, dirs: set<string>)
    requires GetArgument(env.args, "path") in ForbiddenRoots
    ensures var t := Targets(env, dirs);
      forall k :: 0 <= k < 4 ==> TmpDirectory(env.toolDir) + "/" <= t[k]
  {
    ForbiddenRootsRejected(env.args, dirs, env.toolDir);
  }

  /**
   * A run whose --path is one of the rejected names goes on under the
   * fallback: it warns about the path first, makes the four quadrants
   * inside `tmp` beside the script, and stores each rendered template in
   * its target there.
   */
  lemma FallbackRun(env: Env, w: World)
    requires Ready(env, w) && GetArgument(env.args, "path") in ForbiddenRoots
    ensures var r := Run(env, w);
      var q := Quadrants(env, w.dirs);
      var t := Targets(env, w.dirs);
      r.status == Running
      && |r.output| > |w.output| && r.output[|w.output|] == RootFallback(GetArgument(env.args, "path"), TmpDirectory(env.toolDir))
      && (forall k :: 0 <= k < 4 ==> TmpDirectory(env.toolDir) + "/" <= q[k] && IsDir(r.dirs, q[k]))
      && (forall k :: 0 <= k < 4 ==>
            TmpDirectory(env.toolDir) + "/" <= t[k] && Normalize(t[k]) in r.files && r.files[Normalize(t[k])] == Contents(env, w.files, k))
  {
    FallbackWarnedFirst(env, w);
    FallbackDirectories(env, w);
    FallbackTargets(env, w.dirs);
    CleanRunDirs(env, w);
    CleanRunStores(env, w);
  }

  // ---------------------------------------------------------------------
  // Running twice
  // ---------------------------------------------------------------------

  /** `ns` printed `k` times. */
  function RepeatNotices(ns: seq<Notice>, k: nat): seq<Notice> {
    if k == 0 then [] else RepeatNotices(ns, k - 1) + ns
  }

  /** Directory steps on directories that already exist only print the root's notices. */
  lemma {:induction false} EnsuredNoop(w: World, q: seq<string>, ns: seq<Notice>, k: nat)
    requires k <= |q|
    requires forall j :: 0 <= j < |q| ==> IsDir(w.dirs, q[j])
    ensures Ensured(w, q, ns, k) == Announce(w, RepeatNotices(ns, k))
  {
    if k > 0 {
      EnsuredNoop(w, q, ns, k - 1);
      AppendTwice(w.output, RepeatNotices(ns, k - 1), ns);
    } else {
      assert w.output + [] == w.output;
    }
  }

  /** Applying the same four updates a second time changes nothing. */
  lemma UpdatesTwice<K, V>(m: map<K, V>, a: K, b: K, c: K, d: K, x: V, y: V, z: V, u: V)
    ensures m[a := x][b := y][c := z][d := u][a := x][b := y][c := z][d := u] == m[a := x][b := y][c := z][d := u]
  {
  }

  /** Everything a run computes from the root is the same over a larger disk once the root is settled. */
  lemma SettledLayout(env: Env, dirs: set<string>, more: set<string>)
    requires dirs <= more
    requires RootSettled(GetArgument(env.args, "path"), dirs)
    ensures RootSettled(GetArgument(env.args, "path"), more)
    ensures RootPathIsValid(GetArgument(env.args, "path"), more) == RootPathIsValid(GetArgument(env.args, "path"), dirs)
    ensures Quadrants(env, more) == Quadrants(env, dirs)
    ensures Targets(env, more) == Targets(env, dirs)
    ensures RootNotices(env, more) == RootNotices(env, dirs)
    ensures TargetNotices(env, more) == TargetNotices(env, dirs)
  {
    RootDirectoryPathStable(env.args, dirs, more, env.toolDir);
    assert Quadrants(env, more) == Quadrants(env, dirs);
    assert Targets(env, more) == Targets(env, dirs);
  }

  /**
   * The directory step of a second run changes no directory: it only
   * repeats the root's notices, which are none under a valid root.
   */
  lemma RerunDirectories(env: Env, w: World)
    requires Ready(env, w)
    ensures RootSettled(GetArgument(env.args, "path"), Run(env, w).dirs)
    ensures ExpectedDirectoriesEnsured(env, Run(env, w)) == Announce(Run(env, w), RepeatNotices(RootNotices(env, w.dirs), 4))
    ensures RootPathIsValid(GetArgument(env.args, "path"), w.dirs) ==> ExpectedDirectoriesEnsured(env, Run(env, w)) == Run(env, w)
    ensures Targets(env, Run(env, w).dirs) == Targets(env, w.dirs)
    ensures TargetNotices(env, Run(env, w).dirs) == TargetNotices(env, w.dirs)
  {
    var r := Run(env, w);
    var q := Quadrants(env, w.dirs);
    var ns := RootNotices(env, w.dirs);
    CleanRunDirs(env, w);
    ExpectedDirectoriesMade(env, w);
    SettledLayout(env, w.dirs, r.dirs);
    assert forall j :: 0 <= j < |q| ==> IsDir(r.dirs, q[j]);
    ExpectedDirectoriesChain(env, r);
    EnsuredNoop(r, q, ns, 4);
    if RootPathIsValid(GetArgument(env.args, "path"), w.dirs) {
      assert RepeatNotices([], 4) == [];
      assert r.output + [] == r.output;
    }
  }

  /** After a clean run the next run is clean too. */
  lemma CleanRunStaysReady(env: Env, w: World)
    requires Ready(env, w)
    ensures Ready(env, Run(env, w))
  {
    var r := Run(env, w);
    CleanRunDirs(env, w);
    RerunDirectories(env, w);
    RunExtends(env, w);
    assert ExpectedDirectoriesEnsured(env, r).dirs == r.dirs;
  }

  /** Four map updates at other keys leave a key as it was. */
  lemma UpdatesElsewhere<K, V>(m: map<K, V>, a: K, b: K, c: K, d: K, x: V, y: V, z: V, u: V, key: K)
    requires key != a && key != b && key != c && key != d
    ensures (key in m[a := x][b := y][c := z][d := u]) == (key in m)
    ensures key in m ==> m[a := x][b := y][c := z][d := u][key] == m[key]
  {
  }

  /** A clean run leaves the templates alone, so the next run renders the same contents. */
  lemma CleanRunKeepsTemplates(env: Env, w: World, k: nat)
    requires Ready(env, w) && k < 4
    ensures TemplateKey(env, k) in Run(env, w).files
    ensures Run(env, w).files[TemplateKey(env, k)] == w.files[TemplateKey(env, k)]
    ensures Contents(env, Run(env, w).files, k) == Contents(env, w.files, k)
  {
    var t := Targets(env, w.dirs);
    var c := ContentsOf(env, w.files);
    CleanRunFiles(env, w);
    assert TemplateKey(env, k) != Normalize(t[0]) && TemplateKey(env, k) != Normalize(t[1]);
    assert TemplateKey(env, k) != Normalize(t[2]) && TemplateKey(env, k) != Normalize(t[3]);
    UpdatesElsewhere(w.files, Normalize(t[0]), Normalize(t[1]), Normalize(t[2]), Normalize(t[3]),
      c[0], c[1], c[2], c[3], TemplateKey(env, k));
  }

  /** A clean run leaves the templates alone, so the next run renders the same four contents. */
  lemma CleanRunSameContents(env: Env, w: World)
    requires Ready(env, w)
    ensures forall k :: 0 <= k < 4 ==> TemplateKey(env, k) in Run(env, w).files
    ensures ContentsOf(env, Run(env, w).files) == ContentsOf(env, w.files)
  {
    forall k | 0 <= k < 4 ensures TemplateKey(env, k) in Run(env, w).files
      && Contents(env, Run(env, w).files, k) == Contents(env, w.files, k)
    {
      CleanRunKeepsTemplates(env, w, k);
    }
  }

  /** Running the script a second time with the same flags leaves the disk exactly as the first run left it. */
  lemma RerunSameDisk(env: Env, w: World)
    requires Ready(env, w)
    ensures Run(env, Run(env, w)).status == Running
    ensures Run(env, Run(env, w)).dirs == Run(env, w).dirs
    ensures Run(env, Run(env, w)).files == Run(env, w).files
  {
    var r1 := Run(env, w);
    var t := Targets(env, w.dirs);
    var c := ContentsOf(env, w.files);
    var n := [Normalize(t[0]), Normalize(t[1]), Normalize(t[2]), Normalize(t[3])];
    CleanRunFiles(env, w);
    CleanRunStaysReady(env, w);
    RerunDirectories(env, w);
    CleanRunSameContents(env, w);
    CleanRunDirs(env, r1);
    CleanRunFiles(env, r1);
    assert r1.files == w.files[n[0] := c[0]][n[1] := c[1]][n[2] := c[2]][n[3] := c[3]];
    assert Run(env, r1).files == r1.files[n[0] := c[0]][n[1] := c[1]][n[2] := c[2]][n[3] := c[3]];
    UpdatesTwice(w.files, n[0], n[1], n[2], n[3], c[0], c[1], c[2], c[3]);
  }

  /** Writing onto an existing file warns first. */
  lemma WriteNoticesExisting(dirs: set<string>, files: map<string, string>, p: string)
    requires Normalize(p) in files
    ensures WriteNotices(dirs, files, p) == [FileAlreadyExists(p), Writing(p)]
  {
  }

  /** Four pairs, between empty notices, appended one after another. */
  lemma AppendPairs<T>(o: seq<T>, z: seq<T>, a: T, b: T, c: T, d: T, e: T, f: T, g: T, h: T)
    requires z == []
    ensures o + z + z + [a, b] + z + [c, d] + z + [e, f] + z + [g, h] == o + [a, b, c, d, e, f, g, h]
  {
  }

  /**
   * The second run creates no directory and, for every target in template
   * order, prints the root's notices, the warning that the file exists and
   * then the write notice; before that it only repeats the root's warning
   * once per quadrant.
   */
  lemma RerunWarnsEveryFile(env: Env, w: World)
    requires Ready(env, w)
    ensures var t := Targets(env, w.dirs);
      var ns := TargetNotices(env, w.dirs);
      Run(env, Run(env, w)).output == Run(env, w).output + RepeatNotices(RootNotices(env, w.dirs), 4)
        + ns + [FileAlreadyExists(t[0]), Writing(t[0])] + ns + [FileAlreadyExists(t[1]), Writing(t[1])]
        + ns + [FileAlreadyExists(t[2]), Writing(t[2])] + ns + [FileAlreadyExists(t[3]), Writing(t[3])]
  {
    var r1 := Run(env, w);
    var t := Targets(env, w.dirs);
    var ns := TargetNotices(env, w.dirs);
    var rep := RepeatNotices(RootNotices(env, w.dirs), 4);
    var c := ContentsOf(env, w.files);
    var n := [Normalize(t[0]), Normalize(t[1]), Normalize(t[2]), Normalize(t[3])];
    CleanRunFiles(env, w);
    CleanRunStaysReady(env, w);
    RerunDirectories(env, w);
    CleanRunSameContents(env, w);
    CleanRun(env, r1);
    assert r1.files == w.files[n[0] := c[0]][n[1] := c[1]][n[2] := c[2]][n[3] := c[3]];
    var e2 := ExpectedDirectoriesEnsured(env, r1);
    assert e2.dirs == r1.dirs && e2.output == r1.output + rep;
    var g1 := r1.files[n[0] := c[0]];
    var g2 := g1[n[1] := c[1]];
    var g3 := g2[n[2] := c[2]];
    assert Run(env, r1).output == e2.output + ns + WriteNotices(r1.dirs, r1.files, t[0]) + ns + WriteNotices(r1.dirs, g1, t[1])
      + ns + WriteNotices(r1.dirs, g2, t[2]) + ns + WriteNotices(r1.dirs, g3, t[3]);
    assert n[0] in r1.files && n[1] in r1.files && n[2] in r1.files && n[3] in r1.files;
    WriteNoticesExisting(r1.dirs, r1.files, t[0]);
    WriteNoticesExisting(r1.dirs, g1, t[1]);
    WriteNoticesExisting(r1.dirs, g2, t[2]);
    WriteNoticesExisting(r1.dirs, g3, t[3]);
  }

  /**
   * Under a valid root the second run prints nothing but, for every target
   * in template order, the warning that the file exists and the write notice.
   */
  lemma RerunWarnsOnlyAboutFiles(env: Env, w: World)
    requires Ready(env, w) && RootPathIsValid(GetArgument(env.args, "path"), w.dirs)
    ensures var t := Targets(env, w.dirs);
      Run(env, Run(env, w)).output == Run(env, w).output
        + [FileAlreadyExists(t[0]), Writing(t[0]), FileAlreadyExists(t[1]), Writing(t[1]),
           FileAlreadyExists(t[2]), Writing(t[2]), FileAlreadyExists(t[3]), Writing(t[3])]
  {
    var t := Targets(env, w.dirs);
    var ns := TargetNotices(env, w.dirs);
    RerunWarnsEveryFile(env, w);
    assert RepeatNotices(RootNotices(env, w.dirs), 4) == [] && ns == [];
    AppendPairs(Run(env, w).output, ns, FileAlreadyExists(t[0]), Writing(t[0]), FileAlreadyExists(t[1]), Writing(t[1]),
      FileAlreadyExists(t[2]), Writing(t[2]), FileAlreadyExists(t[3]), Writing(t[3]));
  }
}
