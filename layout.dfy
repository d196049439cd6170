/**
 * Where NewClass.php puts things: the root directory (the --path flag or a
 * fallback `tmp` directory beside the tool), the directory derived from the
 * sub-namespace, the four target directories and files, the template paths,
 * and the directories `mkdir(..., recursive: true)` creates.
 *
 * Directories and files are sets and maps keyed by path strings. Paths are
 * compared after normalisation: runs of '/' count as one and a trailing '/'
 * is ignored, so ".//tests" and "./tests/" name the same directory. The
 * directory separator is '/'.
 */
module Layout {
  import opened PhpStrings
  import opened Arguments

  /** `DIRECTORY_SEPARATOR` on the platforms the tool targets. */
  const Separator: string := "/"

  // ---------------------------------------------------------------------
  // Path normalisation
  // ---------------------------------------------------------------------

  /** No two separators in a row. */
  predicate SingleSlashes(p: string) {
    forall i :: 0 <= i < |p| - 1 ==> !(p[i] == '/' && p[i + 1] == '/')
  }

  /** Collapses every run of separators to one. */
  function Collapse(p: string): string
    decreases |p|
  {
    if |p| <= 1 then p
    else if p[0] == '/' && p[1] == '/' then Collapse(p[1..])
    else [p[0]] + Collapse(p[1..])
  }

  /** Collapsing leaves no run of separators, keeps the first and the last character and shortens at most. */
  lemma {:induction false} CollapseShape(p: string)
    ensures |Collapse(p)| <= |p|
    ensures SingleSlashes(Collapse(p))
    ensures p != [] ==> Collapse(p) != [] && Collapse(p)[0] == p[0]
    ensures p != [] ==> Collapse(p)[|Collapse(p)| - 1] == p[|p| - 1]
    decreases |p|
  {
    if |p| > 1 {
      CollapseShape(p[1..]);
      assert p[1..][|p[1..]| - 1] == p[|p| - 1];
      if !(p[0] == '/' && p[1] == '/') {
        var t := Collapse(p[1..]);
        var r := [p[0]] + t;
        forall i | 0 <= i < |r| - 1 ensures !(r[i] == '/' && r[i + 1] == '/') {
          if i > 0 {
            assert r[i] == t[i - 1] && r[i + 1] == t[i];
          } else {
            assert r[1] == t[0] == p[1];
          }
        }
      }
    }
  }

  /** A path without repeated separators is its own collapse. */
  lemma {:induction false} CollapseSingle(p: string)
    requires SingleSlashes(p)
    ensures Collapse(p) == p
    decreases |p|
  {
    if |p| > 1 {
      assert !(p[0] == '/' && p[1] == '/');
      assert SingleSlashes(p[1..]) by {
        forall i | 0 <= i < |p[1..]| - 1 ensures !(p[1..][i] == '/' && p[1..][i + 1] == '/') {
          assert p[1..][i] == p[i + 1] && p[1..][i + 1] == p[i + 2];
        }
      }
      CollapseSingle(p[1..]);
      assert p == [p[0]] + p[1..];
    }
  }

  /** Collapsing a concatenation collapses each part when no run of separators straddles the joint. */
  lemma {:induction false} CollapseConcat(a: string, b: string)
    requires a == [] || b == [] || !(a[|a| - 1] == '/' && b[0] == '/')
    ensures Collapse(a + b) == Collapse(a) + Collapse(b)
    decreases |a|
  {
    if a == [] {
      assert a + b == b;
    } else if b == [] {
      assert a + b == a;
    } else if |a| == 1 {
      assert (a + b)[1..] == b;
    } else {
      assert (a + b)[1..] == a[1..] + b;
      assert a[1..][|a[1..]| - 1] == a[|a| - 1];
      CollapseConcat(a[1..], b);
    }
  }

  /** A prefix without runs of separators survives collapsing whatever follows it. */
  lemma {:induction false} CollapseKeepsPrefix(p: string, rest: string)
    requires SingleSlashes(p)
    ensures p <= Collapse(p + rest)
    decreases |p|
  {
    var s := p + rest;
    if p != [] && |s| > 1 {
      assert s[1..] == p[1..] + rest;
      if s[0] == '/' && s[1] == '/' {
        assert |p| == 1;
        CollapseShape(s[1..]);
      } else {
        assert SingleSlashes(p[1..]) by {
          forall i | 0 <= i < |p[1..]| - 1 ensures !(p[1..][i] == '/' && p[1..][i + 1] == '/') {
            assert p[1..][i] == p[i + 1] && p[1..][i + 1] == p[i + 2];
          }
        }
        CollapseKeepsPrefix(p[1..], rest);
      }
    } else if p != [] {
      assert s == p;
    }
  }

  /** The path as the file system names it: separators collapsed, no trailing one. */
  function Normalize(p: string): string {
    var c := Collapse(p);
    if |c| > 1 && c[|c| - 1] == '/' then c[..|c| - 1] else c
  }

  /** A normalised path has no run of separators and no trailing one, and is empty only for "". */
  lemma NormalizeShape(p: string)
    ensures SingleSlashes(Normalize(p))
    ensures |Normalize(p)| > 1 ==> Normalize(p)[|Normalize(p)| - 1] != '/'
    ensures |Normalize(p)| <= |p| && (p != [] ==> Normalize(p) != [])
  {
    CollapseShape(p);
    var c := Collapse(p);
    if |c| > 1 && c[|c| - 1] == '/' {
      var r := c[..|c| - 1];
      assert r[|r| - 1] == c[|c| - 2];
      assert forall i :: 0 <= i < |r| ==> r[i] == c[i];
    }
  }

  /** Normalising a normalised path changes nothing. */
  lemma NormalizeIdempotent(p: string)
    ensures Normalize(Normalize(p)) == Normalize(p)
  {
    NormalizeShape(p);
    NormalizeNormal(Normalize(p));
  }

  /** A path that is already normal is left as it is. */
  lemma NormalizeNormal(p: string)
    requires SingleSlashes(p) && (|p| > 1 ==> p[|p| - 1] != '/')
    ensures Normalize(p) == p
  {
    CollapseSingle(p);
  }

  // ---------------------------------------------------------------------
  // The file system as the tool sees it
  // ---------------------------------------------------------------------

  /** `is_dir`. */
  predicate IsDir(dirs: set<string>, p: string) {
    Normalize(p) in dirs
  }

  /** `file_exists`: a file or a directory is there. */
  predicate FileExists(dirs: set<string>, files: map<string, string>, p: string) {
    Normalize(p) in dirs || Normalize(p) in files
  }

  /**
   * `is_dir` and `file_exists` look at a path only up to slash normalisation:
   * two spellings that normalise alike give the same answers, and a directory
   * counts as existing.
   */
  lemma ExistenceBySpelling(dirs: set<string>, files: map<string, string>, p: string, q: string)
    requires Normalize(p) == Normalize(q)
    ensures IsDir(dirs, p) == IsDir(dirs, q)
    ensures FileExists(dirs, files, p) == FileExists(dirs, files, q)
    ensures IsDir(dirs, p) ==> FileExists(dirs, files, p)
  {
  }

  /** A path and its normalised spelling are the same directory, and the same file. */
  lemma ExistenceOfNormalized(dirs: set<string>, files: map<string, string>, p: string)
    ensures IsDir(dirs, Normalize(p)) == IsDir(dirs, p)
    ensures FileExists(dirs, files, Normalize(p)) == FileExists(dirs, files, p)
  {
    NormalizeIdempotent(p);
  }

  /**
   * The directories `mkdir($p, recursive: true)` leaves in place for the
   * normalised path `p`: `p` itself and every proper prefix that ends just
   * before a separator (the ancestors), the empty prefix aside.
   */
  function Lineage(p: string): (r: set<string>)
    ensures p in r
    ensures forall d :: d in r ==> d <= p
  {
    {p} + set i | 0 < i < |p| && p[i] == '/' :: p[..i]
  }

  /** `mkdir($p, recursive: true)` on a path that is not yet a directory. */
  function MakeDirectories(dirs: set<string>, p: string): (r: set<string>)
    ensures dirs <= r && Normalize(p) in r
  {
    dirs + Lineage(Normalize(p))
  }

  /** The ancestors of an ancestor are ancestors: making a path makes its whole lineage. */
  lemma LineageOfPrefix(p: string, i: nat)
    requires 0 < i < |p| && p[i] == '/'
    ensures Lineage(p[..i]) <= Lineage(p)
  {
    var q := p[..i];
    forall d | d in Lineage(q) ensures d in Lineage(p) {
      if d != q {
        var j :| 0 < j < |q| && q[j] == '/' && d == q[..j];
        assert p[j] == '/' && d == p[..j];
      }
    }
  }

  /** Making a directory that already exists with its lineage changes nothing. */
  lemma MakeDirectoriesIdempotent(dirs: set<string>, p: string)
    ensures MakeDirectories(MakeDirectories(dirs, p), p) == MakeDirectories(dirs, p)
  {
  }

  // ---------------------------------------------------------------------
  // The root directory
  // ---------------------------------------------------------------------

  /**
   * `rootPathIsValid`: rejects an empty path (PHP `empty`, so "0" too), the
   * separator, "/", "/home" and anything that is not a directory.
   */
  predicate RootPathIsValid(path: string, dirs: set<string>)
    ensures RootPathIsValid(path, dirs) ==> IsDir(dirs, path) && path !in ForbiddenRoots
  {
    !(Empty(path) || path == Separator || path == "/" || path == "/home" || !IsDir(dirs, path))
  }

  /** The --path values `rootPathIsValid` rejects whatever exists. */
  const ForbiddenRoots: set<string> := {"", "0", "/", "/home"}

  /**
   * A --path whose validity no added directory can change: a valid root,
   * which stays valid, or one of the rejected names, which stays rejected.
   */
  predicate RootSettled(path: string, dirs: set<string>) {
    RootPathIsValid(path, dirs) || path in ForbiddenRoots
  }

  /** The fallback root, `tmp` inside the tool's own directory. */
  function TmpDirectory(toolDir: string): (r: string)
    ensures |r| == |toolDir| + 4 && r[..|toolDir|] == toolDir
    ensures r[|toolDir|..] == "/tmp"
  {
    toolDir + Separator + "tmp"
  }

  /** `rootDirectoryPath`: the --path argument when it is a valid root, the fallback otherwise. */
  function RootDirectoryPath(args: Args, dirs: set<string>, toolDir: string): (r: string)
    ensures r == GetArgument(args, "path") || r == TmpDirectory(toolDir)
    ensures r == GetArgument(args, "path") <==>
      RootPathIsValid(GetArgument(args, "path"), dirs) || GetArgument(args, "path") == TmpDirectory(toolDir)
  {
    var specified := GetArgument(args, "path");
    if !RootPathIsValid(specified, dirs) then TmpDirectory(toolDir) else specified
  }

  /**
   * While directories are only added, a settled root stays settled, its
   * validity does not change and neither does the root chosen; a valid one
   * stays the root.
   */
  lemma RootDirectoryPathStable(args: Args, dirs: set<string>, more: set<string>, toolDir: string)
    requires dirs <= more
    requires RootSettled(GetArgument(args, "path"), dirs)
    ensures RootSettled(GetArgument(args, "path"), more)
    ensures RootPathIsValid(GetArgument(args, "path"), more) == RootPathIsValid(GetArgument(args, "path"), dirs)
    ensures RootDirectoryPath(args, more, toolDir) == RootDirectoryPath(args, dirs, toolDir)
    ensures RootPathIsValid(GetArgument(args, "path"), dirs) ==> RootDirectoryPath(args, more, toolDir) == GetArgument(args, "path")
  {
  }

  /** A root is valid exactly when it is an existing directory other than the four rejected names. */
  lemma RootPathIsValidExactly(path: string, dirs: set<string>)
    ensures RootPathIsValid(path, dirs) <==> path !in ForbiddenRoots && Normalize(path) in dirs
  {
  }

  /** None of the rejected roots is ever used as the --path, whatever exists: the fallback is used instead. */
  lemma ForbiddenRootsRejected(args: Args, dirs: set<string>, toolDir: string)
    requires GetArgument(args, "path") in ForbiddenRoots
    ensures !RootPathIsValid(GetArgument(args, "path"), dirs)
    ensures RootDirectoryPath(args, dirs, toolDir) == TmpDirectory(toolDir)
  {
  }

  // ---------------------------------------------------------------------
  // The sub-directory and the target paths
  // ---------------------------------------------------------------------

  /** A namespace as a relative path: every backslash becomes a separator. */
  function NamespaceToPath(ns: string): (r: string)
    ensures |r| == |ns| && '\\' !in r
  {
    StrReplaceChar('\\', '/', ns);
    assert StrReplace("\\", "/", ns) == StrReplace(['\\'], ['/'], ns);
    StrReplace("\\", "/", ns)
  }

  /**
   * `deriveSubDirectoryPathFromSubnamespace` keeps the length, turns each
   * backslash into '/', leaves every other character, and so leaves no
   * backslash behind; applying it again changes nothing.
   */
  lemma NamespaceToPathMaps(ns: string)
    ensures |NamespaceToPath(ns)| == |ns|
    ensures forall i :: 0 <= i < |ns| ==> NamespaceToPath(ns)[i] == if ns[i] == '\\' then '/' else ns[i]
    ensures '\\' !in NamespaceToPath(ns)
    ensures NamespaceToPath(NamespaceToPath(ns)) == NamespaceToPath(ns)
  {
    StrReplaceChar('\\', '/', ns);
    var r := NamespaceToPath(ns);
    StrReplaceChar('\\', '/', r);
    assert r == StrReplace(['\\'], ['/'], ns);
    assert NamespaceToPath(r) == StrReplace(['\\'], ['/'], r);
  }

  /** The sub-directory derived from the --subnamespace argument. */
  function SubDirectoryPath(args: Args): (r: string)
    ensures |r| == |GetArgument(args, "subnamespace")| && '\\' !in r
  {
    NamespaceToPath(GetArgument(args, "subnamespace"))
  }

  /** The example from the documentation of the flags: Baz\Bazzer becomes Baz/Bazzer. */
  lemma SubDirectoryExample(args: Args)
    requires GetArgument(args, "subnamespace") == "Baz\\Bazzer"
    ensures SubDirectoryPath(args) == "Baz/Bazzer"
  {
    var ns := "Baz\\Bazzer";
    var want := "Baz/Bazzer";
    var r := NamespaceToPath(ns);
    NamespaceToPathMaps(ns);
    forall i | 0 <= i < |ns| ensures r[i] == want[i] {
      assert want[i] == if ns[i] == '\\' then '/' else ns[i];
    }
  }

  /** `determineAppropriateDirectoryPath`: root, "tests" or "src", "interfaces" or "classes", sub-directory. */
  function DirectoryPath(args: Args, dirs: set<string>, toolDir: string, testsOrSrc: string,
                         interfaceOrClass: string): (r: string)
    ensures RootDirectoryPath(args, dirs, toolDir) + Separator <= r
    ensures |r| == |RootDirectoryPath(args, dirs, toolDir)| + |testsOrSrc| + |interfaceOrClass|
                   + |GetArgument(args, "subnamespace")| + 3
  {
    RootDirectoryPath(args, dirs, toolDir) + Separator + testsOrSrc + Separator + interfaceOrClass
      + Separator + SubDirectoryPath(args)
  }

  /**
   * Under a valid root the directory is the --path argument, then the two
   * levels, then the sub-directory, each after a separator; the last
   * separator is there even when the sub-namespace is empty.
   */
  lemma DirectoryPathUnderRoot(args: Args, dirs: set<string>, toolDir: string, testsOrSrc: string,
                               interfaceOrClass: string)
    requires RootPathIsValid(GetArgument(args, "path"), dirs)
    ensures DirectoryPath(args, dirs, toolDir, testsOrSrc, interfaceOrClass)
         == GetArgument(args, "path") + "/" + testsOrSrc + "/" + interfaceOrClass + "/" + NamespaceToPath(GetArgument(args, "subnamespace"))
    ensures GetArgument(args, "subnamespace") == "" ==>
      DirectoryPath(args, dirs, toolDir, testsOrSrc, interfaceOrClass)
        == GetArgument(args, "path") + "/" + testsOrSrc + "/" + interfaceOrClass + "/"
  {
    if GetArgument(args, "subnamespace") == "" {
      assert NamespaceToPath("") == "";
    }
  }

  /** The template names, in the order `templatePaths` lists them. */
  const TemplateNames: seq<string> := ["TestTrait.php", "Test.php", "Interface.php", "Class.php"]

  /**
   * `determineAppropriatePathForFile`: the target of each known template in
   * its directory, named after the --name argument, and "" for any other name.
   */
  function PathForFile(args: Args, dirs: set<string>, toolDir: string, templateName: string): (r: string)
    ensures templateName in TemplateNames ==> RootDirectoryPath(args, dirs, toolDir) + Separator <= r
    ensures templateName !in TemplateNames ==> r == ""
  {
    var name := GetArgument(args, "name");
    if templateName == "TestTrait.php" then
      DirectoryPath(args, dirs, toolDir, "tests", "interfaces") + Separator + name + "TestTrait.php"
    else if templateName == "Test.php" then
      DirectoryPath(args, dirs, toolDir, "tests", "classes") + Separator + name + "Test.php"
    else if templateName == "Interface.php" then
      DirectoryPath(args, dirs, toolDir, "src", "interfaces") + Separator + name + ".php"
    else if templateName == "Class.php" then
      DirectoryPath(args, dirs, toolDir, "src", "classes") + Separator + name + ".php"
    else ""
  }

  /** The target path is empty exactly when the template name is not one of the four. */
  lemma PathForFileEmptyIffUnknown(args: Args, dirs: set<string>, toolDir: string, templateName: string)
    ensures PathForFile(args, dirs, toolDir, templateName) == "" <==> templateName !in TemplateNames
  {
  }

  /** The two directory levels of each target, with their separators, in the order of `TemplateNames`. */
  const TargetLevels: seq<string> := ["tests/interfaces/", "tests/classes/", "src/interfaces/", "src/classes/"]

  /** What follows the --name argument in each target's file name, in the same order. */
  const TargetSuffixes: seq<string> := ["TestTrait.php", "Test.php", ".php", ".php"]

  /** Regrouping the pieces of a target: the root with its separator, then the levels, then the rest. */
  lemma TargetRegrouped(root: string, a: string, b: string, sub: string, name: string, suffix: string)
    ensures root + "/" + a + "/" + b + "/" + sub + "/" + name + suffix
         == (root + "/") + ((a + "/" + b + "/") + (sub + "/" + (name + suffix)))
  {
  }

  /** A target in a quadrant, regrouped as the root and a separator, the two levels, then the rest. */
  lemma QuadrantTargetRegrouped(args: Args, dirs: set<string>, toolDir: string, a: string, b: string,
                                levels: string, suffix: string)
    requires a + "/" + b + "/" == levels
    ensures DirectoryPath(args, dirs, toolDir, a, b) + Separator + GetArgument(args, "name") + suffix
         == (RootDirectoryPath(args, dirs, toolDir) + "/")
            + (levels + (SubDirectoryPath(args) + "/" + (GetArgument(args, "name") + suffix)))
  {
    TargetRegrouped(RootDirectoryPath(args, dirs, toolDir), a, b, SubDirectoryPath(args), GetArgument(args, "name"), suffix);
  }

  /** Each target is the root and a separator, then its two levels, then the sub-directory and the file name. */
  lemma PathForFileSpelled(args: Args, dirs: set<string>, toolDir: string, k: nat)
    requires k < |TemplateNames|
    ensures PathForFile(args, dirs, toolDir, TemplateNames[k])
         == (RootDirectoryPath(args, dirs, toolDir) + "/")
            + (TargetLevels[k] + (SubDirectoryPath(args) + "/" + (GetArgument(args, "name") + TargetSuffixes[k])))
  {
    if k == 0 {
      QuadrantTargetRegrouped(args, dirs, toolDir, "tests", "interfaces", TargetLevels[k], TargetSuffixes[k]);
    } else if k == 1 {
      QuadrantTargetRegrouped(args, dirs, toolDir, "tests", "classes", TargetLevels[k], TargetSuffixes[k]);
    } else if k == 2 {
      QuadrantTargetRegrouped(args, dirs, toolDir, "src", "interfaces", TargetLevels[k], TargetSuffixes[k]);
    } else {
      QuadrantTargetRegrouped(args, dirs, toolDir, "src", "classes", TargetLevels[k], TargetSuffixes[k]);
    }
  }

  /** The levels of a target have no run of separators. */
  lemma LevelsSingleSlashes(k: nat)
    requires k < |TargetLevels|
    ensures SingleSlashes(TargetLevels[k])
  {
    var l := TargetLevels[k];
    forall i | 0 <= i < |l| - 1 ensures !(l[i] == '/' && l[i + 1] == '/') {
      assert l[i] != '/' || l[i + 1] != '/';
    }
  }

  /** Two strings that carry the same head and then prefixes differing at one place are different. */
  lemma DifferAfter(head: string, x: string, y: string, px: string, py: string, m: nat)
    requires px <= x && py <= y && m < |px| && m < |py| && px[m] != py[m]
    ensures head + x != head + y
  {
    assert (head + x)[|head| + m] == px[m];
    assert (head + y)[|head| + m] == py[m];
  }

  /**
   * The key a target is stored under: the collapsed root and separator,
   * followed by a collapsed remainder that starts with the target's two
   * levels intact.
   */
  lemma TargetKeyShape(args: Args, dirs: set<string>, toolDir: string, k: nat)
    requires k < |TemplateNames|
    ensures var head := Collapse(RootDirectoryPath(args, dirs, toolDir) + "/");
      var rest := Collapse(TargetLevels[k] + (SubDirectoryPath(args) + "/" + (GetArgument(args, "name") + TargetSuffixes[k])));
      Normalize(PathForFile(args, dirs, toolDir, TemplateNames[k])) == head + rest && TargetLevels[k] <= rest
  {
    var a := RootDirectoryPath(args, dirs, toolDir) + "/";
    var tail := SubDirectoryPath(args) + "/" + (GetArgument(args, "name") + TargetSuffixes[k]);
    PathForFileSpelled(args, dirs, toolDir, k);
    LevelsSingleSlashes(k);
    assert TargetLevels[k][0] != '/';
    assert tail[|tail| - 1] == TargetSuffixes[k][|TargetSuffixes[k]| - 1] == 'p';
    SplitKeyShape(a, TargetLevels[k], tail);
  }

  /** A path that ends in a non-separator and has levels without a leading separator after `a` splits as its key. */
  lemma SplitKeyShape(a: string, levels: string, tail: string)
    requires levels != [] && levels[0] != '/' && SingleSlashes(levels)
    requires tail != [] && tail[|tail| - 1] != '/'
    ensures Normalize(a + (levels + tail)) == Collapse(a) + Collapse(levels + tail)
    ensures levels <= Collapse(levels + tail)
  {
    var t := a + (levels + tail);
    CollapseConcat(a, levels + tail);
    CollapseKeepsPrefix(levels, tail);
    assert t[|t| - 1] == tail[|tail| - 1];
    CollapseShape(t);
  }

  /**
   * Under one state of the disk the four targets are four different files,
   * both as spelled and as the normalised keys they are stored under: after
   * the root they start with four different pairs of levels.
   */
  lemma TargetsDistinct(args: Args, dirs: set<string>, toolDir: string, i: nat, j: nat)
    requires i < j < |TemplateNames|
    ensures Normalize(PathForFile(args, dirs, toolDir, TemplateNames[i]))
         != Normalize(PathForFile(args, dirs, toolDir, TemplateNames[j]))
    ensures PathForFile(args, dirs, toolDir, TemplateNames[i]) != PathForFile(args, dirs, toolDir, TemplateNames[j])
  {
    var head := Collapse(RootDirectoryPath(args, dirs, toolDir) + "/");
    var tail := SubDirectoryPath(args) + "/";
    var name := GetArgument(args, "name");
    TargetKeyShape(args, dirs, toolDir, i);
    TargetKeyShape(args, dirs, toolDir, j);
    var x := Collapse(TargetLevels[i] + (tail + (name + TargetSuffixes[i])));
    var y := Collapse(TargetLevels[j] + (tail + (name + TargetSuffixes[j])));
    var m := LevelsDiffer(i, j);
    DifferAfter(head, x, y, TargetLevels[i], TargetLevels[j], m);
  }

  /** A place where the levels of two different targets differ. */
  function LevelsDiffer(i: nat, j: nat): (m: nat)
    requires i < j < |TargetLevels|
    ensures m < |TargetLevels[i]| && m < |TargetLevels[j]| && TargetLevels[i][m] != TargetLevels[j][m]
  {
    if i == 0 && j == 1 then 6 else if i == 2 && j == 3 then 4 else 0
  }

  /** The spelling of the Interface target of the documented example below a root. */
  lemma InterfaceExampleSpelled(root: string)
    ensures root + "/" + "src" + "/" + "interfaces" + "/" + "Baz/Bazzer" + "/" + "Foo" + ".php"
         == root + "/src/interfaces/Baz/Bazzer/Foo.php"
  {
    var a := root + "/" + "src" + "/" + "interfaces" + "/";
    assert a == root + "/src/interfaces/";
    var b := a + "Baz/Bazzer" + "/";
    assert b == root + "/src/interfaces/Baz/Bazzer/";
    assert b + "Foo" + ".php" == root + "/src/interfaces/Baz/Bazzer/Foo.php";
  }

  /** The Interface target for the documented example flags, under any valid root. */
  lemma InterfacePathExample(args: Args, dirs: set<string>, toolDir: string)
    requires RootPathIsValid(GetArgument(args, "path"), dirs)
    requires GetArgument(args, "name") == "Foo" && GetArgument(args, "subnamespace") == "Baz\\Bazzer"
    ensures PathForFile(args, dirs, toolDir, "Interface.php")
         == GetArgument(args, "path") + "/src/interfaces/Baz/Bazzer/Foo.php"
  {
    SubDirectoryExample(args);
    DirectoryPathUnderRoot(args, dirs, toolDir, "src", "interfaces");
    InterfaceExampleSpelled(GetArgument(args, "path"));
  }

  // ---------------------------------------------------------------------
  // The templates
  // ---------------------------------------------------------------------

  /** Where a template lives beside the tool. */
  function TemplateFilePath(toolDir: string, templateName: string): (r: string)
    ensures |r| == |toolDir| + 11 + |templateName|
    ensures r[..|toolDir|] == toolDir && r[|toolDir|..] == "/templates/" + templateName
  {
    toolDir + Separator + "templates" + Separator + templateName
  }

  /** `realpath` on a file: its normalised path when it exists, "" (from `strval(false)`) otherwise. */
  function RealPath(files: map<string, string>, p: string): (r: string)
    ensures r == "" || (r in files && r == Normalize(p))
    ensures Normalize(p) in files && Normalize(p) != "" ==> r == Normalize(p)
  {
    if Normalize(p) in files && Normalize(p) != "" then Normalize(p) else ""
  }

  /** `templatePaths`: each template name with the real path of its file, in the listed order. */
  function TemplatePaths(files: map<string, string>, toolDir: string): (ts: seq<(string, string)>)
    ensures |ts| == |TemplateNames|
    ensures forall k :: 0 <= k < |ts| ==> ts[k].0 == TemplateNames[k]
    ensures forall k :: 0 <= k < |ts| ==> ts[k].1 == RealPath(files, TemplateFilePath(toolDir, TemplateNames[k]))
  {
    seq(|TemplateNames|, k requires 0 <= k < |TemplateNames| =>
      (TemplateNames[k], RealPath(files, TemplateFilePath(toolDir, TemplateNames[k]))))
  }

  /** Every template `templatePaths` lists has a target. */
  lemma TemplatesHaveTargets(files: map<string, string>, toolDir: string, args: Args, dirs: set<string>, k: nat)
    requires k < |TemplatePaths(files, toolDir)|
    ensures PathForFile(args, dirs, toolDir, TemplatePaths(files, toolDir)[k].0) != ""
  {
    PathForFileEmptyIffUnknown(args, dirs, toolDir, TemplateNames[k]);
  }
}
