/**
 * A run of NewClass.php: check the five flags, create the four target
 * directories, then render each template and write it to its target.
 *
 * The state a run works on is a `World`: the directories and files on disk,
 * the notices printed so far and whether the process is still running. The
 * functions below give the effect of each function of the script on a world;
 * the class `Generator` performs the same steps by updating its fields, and
 * each of its methods is proved to have exactly the effect of its function.
 */
module Scaffold {
  import opened PhpStrings
  import opened Arguments
  import opened Rendering
  import opened Layout

  /** What the script prints, without its wording and colours. */
  datatype Notice =
    | MissingArgument(flag: string)
    | RootFallback(specified: string, used: string)
    | UnknownTemplate
    | CreatingDirectory(path: string)
    | FileAlreadyExists(path: string)
    | Writing(path: string)

  /** Whether the process goes on; `exit(1)` and an uncaught error end it. */
  datatype Status = Running | Exited(code: int)

  /** The disk, the output so far and the process status. */
  datatype World = World(dirs: set<string>, files: map<string, string>, output: seq<Notice>, status: Status)

  /** What a run cannot change: its arguments and the directory the script lives in. */
  datatype Env = Env(args: Args, toolDir: string)

  /** The exit code of a missing flag. */
  const MissingArgumentExit: int := 1

  /** The exit code PHP gives an uncaught error (`file_get_contents("")` throws a ValueError). */
  const FatalErrorExit: int := 255

  // ---------------------------------------------------------------------
  // The effect of each step on a world
  // ---------------------------------------------------------------------

  /** Appends notices to the output. */
  function Announce(w: World, ns: seq<Notice>): (r: World)
    ensures r.dirs == w.dirs && r.files == w.files && r.status == w.status && r.output == w.output + ns
  {
    w.(output := w.output + ns)
  }

  /** `outputErrorMessageAndExitIfExpectedArgumentsWereNotSpecified`. */
  function Validated(env: Env, w: World): (r: World)
    ensures r.dirs == w.dirs && r.files == w.files
    ensures FirstMissingFlag(env.args) == Complete ==> r == w
    ensures FirstMissingFlag(env.args).Missing? ==>
      r.status == Exited(MissingArgumentExit) && r.output == w.output + [MissingArgument(FirstMissingFlag(env.args).flag)]
  {
    match FirstMissingFlag(env.args)
    case Complete => w
    case Missing(f) => Announce(w, [MissingArgument(f)]).(status := Exited(MissingArgumentExit))
  }

  /** The warning one evaluation of `rootDirectoryPath` prints. */
  function RootNotices(env: Env, dirs: set<string>): (r: seq<Notice>)
    ensures r == [] <==> RootPathIsValid(GetArgument(env.args, "path"), dirs)
    ensures r == [] || r == [RootFallback(GetArgument(env.args, "path"), TmpDirectory(env.toolDir))]
  {
    var specified := GetArgument(env.args, "path");
    if RootPathIsValid(specified, dirs) then [] else [RootFallback(specified, TmpDirectory(env.toolDir))]
  }

  /** `createDirectoryIfItDoesNotExist`. */
  function DirectoryEnsured(w: World, p: string): (r: World)
    ensures IsDir(r.dirs, p) && w.dirs <= r.dirs && w.output <= r.output
    ensures r.files == w.files && r.status == w.status
  {
    if IsDir(w.dirs, p) then w
    else Announce(w, [CreatingDirectory(p)]).(dirs := MakeDirectories(w.dirs, p))
  }

  /** One call of `createDirectoryIfItDoesNotExist(determineAppropriateDirectoryPath(...))`. */
  function QuadrantEnsured(env: Env, w: World, testsOrSrc: string, interfaceOrClass: string): (r: World)
    ensures IsDir(r.dirs, DirectoryPath(env.args, w.dirs, env.toolDir, testsOrSrc, interfaceOrClass))
    ensures w.dirs <= r.dirs && w.output <= r.output
    ensures r.files == w.files && r.status == w.status
  {
    var p := DirectoryPath(env.args, w.dirs, env.toolDir, testsOrSrc, interfaceOrClass);
    DirectoryEnsured(Announce(w, RootNotices(env, w.dirs)), p)
  }

  /** `createExpectedDirectories`: the four quadrants, in the order of the source. */
  function ExpectedDirectoriesEnsured(env: Env, w: World): (r: World)
    ensures w.dirs <= r.dirs && w.output <= r.output
    ensures r.files == w.files && r.status == w.status
  {
    var w1 := QuadrantEnsured(env, w, "tests", "interfaces");
    var w2 := QuadrantEnsured(env, w1, "tests", "classes");
    var w3 := QuadrantEnsured(env, w2, "src", "interfaces");
    QuadrantEnsured(env, w3, "src", "classes")
  }

  /**
   * What `determineAppropriatePathForFile` prints: the warning of its own
   * (unused) root evaluation, then that of the chosen arm, or the error
   * message of the default arm.
   */
  function PathNotices(env: Env, dirs: set<string>, templateName: string): (r: seq<Notice>)
    ensures templateName in TemplateNames ==> |r| == 2 * |RootNotices(env, dirs)|
    ensures templateName !in TemplateNames ==> |r| == |RootNotices(env, dirs)| + 1 && r[|r| - 1] == UnknownTemplate
    ensures r == [] <==> templateName in TemplateNames && RootPathIsValid(GetArgument(env.args, "path"), dirs)
  {
    RootNotices(env, dirs) + if templateName in TemplateNames then RootNotices(env, dirs) else [UnknownTemplate]
  }

  /**
   * `createNewFile`: warns when something is already there but writes
   * anyway; writing onto a directory fails and leaves the files as they are.
   */
  function FileWritten(w: World, path: string, content: string): (r: World)
    ensures r.dirs == w.dirs && r.status == w.status
    ensures w.files.Keys <= r.files.Keys && w.output <= r.output
  {
    var files := if Normalize(path) in w.dirs then w.files else w.files[Normalize(path) := content];
    Announce(w, WriteNotices(w.dirs, w.files, path)).(files := files)
  }

  /** What `createNewFile` prints: the warning when something is there, then the write notice. */
  function WriteNotices(dirs: set<string>, files: map<string, string>, path: string): (r: seq<Notice>)
    ensures |r| == (if FileExists(dirs, files, path) then 2 else 1) && r[|r| - 1] == Writing(path)
  {
    (if FileExists(dirs, files, path) then [FileAlreadyExists(path)] else []) + [Writing(path)]
  }

  /** The template text `file_get_contents` reads; "" when the file has gone. */
  function TemplateText(w: World, templatePath: string): (r: string)
    ensures r != "" ==> templatePath in w.files && r == w.files[templatePath]
    ensures templatePath in w.files ==> r == w.files[templatePath]
  {
    if templatePath in w.files then w.files[templatePath] else ""
  }

  /**
   * `generateSourceCodeFromTemplate`: the rendered template, or a fatal
   * error when `templatePaths` found no template file (its path is then "").
   */
  function Generated(env: Env, w: World, templatePath: string): (r: (World, string))
    ensures r.0.dirs == w.dirs && r.0.files == w.files && r.0.output == w.output
    ensures templatePath == "" ==> r.0.status == Exited(FatalErrorExit)
    ensures templatePath != "" ==> r.0 == w
    ensures templatePath != "" ==> r.1 == Render(TemplateText(w, templatePath), env.args)
    ensures templatePath != "" && templatePath in w.files ==> r.1 == Render(w.files[templatePath], env.args)
  {
    if templatePath == "" then (w.(status := Exited(FatalErrorExit)), "")
    else (w, Render(TemplateText(w, templatePath), env.args))
  }

  /** One iteration of the loop of `createNewClassFiles`. */
  function TemplateProcessed(env: Env, w: World, t: (string, string)): (r: World)
    ensures r.dirs == w.dirs && w.files.Keys <= r.files.Keys && w.output <= r.output
    ensures r.status == w.status || r.status == Exited(FatalErrorExit)
  {
    var target := PathForFile(env.args, w.dirs, env.toolDir, t.0);
    var w1 := Announce(w, PathNotices(env, w.dirs, t.0));
    if Empty(target) then w1
    else
      var (w2, code) := Generated(env, w1, t.1);
      if w2.status != Running then w2 else FileWritten(w2, target, code)
  }

  /** The loop of `createNewClassFiles` from the `i`-th template on, until the process ends. */
  function TemplatesFrom(env: Env, w: World, ts: seq<(string, string)>, i: nat): (r: World)
    ensures r.dirs == w.dirs
    ensures r.status == w.status || r.status == Exited(FatalErrorExit)
    decreases |ts| - i
  {
    if i >= |ts| || w.status != Running then w
    else TemplatesFrom(env, TemplateProcessed(env, w, ts[i]), ts, i + 1)
  }

  /** `createNewClassFiles`: a whole run. */
  function Run(env: Env, w: World): (r: World)
    ensures r.status == w.status || r.status == Exited(MissingArgumentExit) || r.status == Exited(FatalErrorExit)
  {
    var w1 := Validated(env, w);
    if w1.status != Running then w1
    else
      var w2 := ExpectedDirectoriesEnsured(env, w1);
      TemplatesFrom(env, w2, TemplatePaths(w2.files, env.toolDir), 0)
  }

  /** Appending twice is appending the concatenation. */
  lemma AppendTwice<T>(o: seq<T>, a: seq<T>, b: seq<T>)
    ensures o + a + b == o + (a + b)
  {
  }

  // ---------------------------------------------------------------------
  // The script, step by step
  // ---------------------------------------------------------------------

  /** The script's process: its arguments, its directory and the world it changes. */
  class Generator {
    const args: Args
    const toolDir: string
    var dirs: set<string>
    var files: map<string, string>
    var output: seq<Notice>
    var status: Status

    /** The world as it now is. */
    function State(): World
      reads this
    {
      World(dirs, files, output, status)
    }

    /** The environment of the run. */
    function Environment(): Env {
      Env(args, toolDir)
    }

    constructor (args: Args, toolDir: string, w: World)
      ensures this.args == args && this.toolDir == toolDir && State() == w
    {
      this.args := args;
      this.toolDir := toolDir;
      dirs := w.dirs;
      files := w.files;
      output := w.output;
      status := w.status;
    }

    /** `outputMessageAndExit`. */
    method OutputMessageAndExit(message: Notice, exitCode: int)
      modifies this
      ensures State() == Announce(old(State()), [message]).(status := Exited(exitCode))
    {
      output := output + [message];
      status := Exited(exitCode);
    }

    /** `outputErrorMessageAndExitIfExpectedArgumentsWereNotSpecified`. */
    method CheckArguments()
      modifies this
      ensures State() == Validated(Environment(), old(State()))
    {
      if "name" !in args {
        OutputMessageAndExit(MissingArgument("name"), MissingArgumentExit);
        return;
      }
      if "path" !in args {
        OutputMessageAndExit(MissingArgument("path"), MissingArgumentExit);
        return;
      }
      if "rootnamespace" !in args {
        OutputMessageAndExit(MissingArgument("rootnamespace"), MissingArgumentExit);
        return;
      }
      if "subnamespace" !in args {
        OutputMessageAndExit(MissingArgument("subnamespace"), MissingArgumentExit);
        return;
      }
      if "basetestname" !in args {
        OutputMessageAndExit(MissingArgument("basetestname"), MissingArgumentExit);
        return;
      }
    }

    /** `rootDirectoryPath`, with its warning. */
    method RootDirectoryPath() returns (root: string)
      modifies this
      ensures root == Layout.RootDirectoryPath(args, old(dirs), toolDir)
      ensures State() == Announce(old(State()), RootNotices(Environment(), old(dirs)))
    {
      var specified := GetArgument(args, "path");
      var tmp := TmpDirectory(toolDir);
      if !RootPathIsValid(specified, dirs) {
        output := output + [RootFallback(specified, tmp)];
        return tmp;
      }
      return specified;
    }

    /** `determineAppropriateDirectoryPath`. */
    method DirectoryPath(testsOrSrc: string, interfaceOrClass: string) returns (path: string)
      modifies this
      ensures path == Layout.DirectoryPath(args, old(dirs), toolDir, testsOrSrc, interfaceOrClass)
      ensures State() == Announce(old(State()), RootNotices(Environment(), old(dirs)))
    {
      var root := RootDirectoryPath();
      path := root + Separator + testsOrSrc + Separator + interfaceOrClass + Separator + SubDirectoryPath(args);
    }

    /** `outputErrorMessageAndReturnEmptyStringIfFileCouldNotBeCreated`. */
    method OutputErrorMessageAndReturnEmptyString() returns (r: string)
      modifies this
      ensures r == "" && State() == Announce(old(State()), [UnknownTemplate])
    {
      output := output + [UnknownTemplate];
      r := "";
    }

    /** `determineAppropriatePathForFile`. */
    method PathForFile(templateName: string) returns (path: string)
      modifies this
      ensures path == Layout.PathForFile(args, old(dirs), toolDir, templateName)
      ensures State() == Announce(old(State()), PathNotices(Environment(), old(dirs), templateName))
    {
      var _ := RootDirectoryPath();
      var name := GetArgument(args, "name");
      if templateName == "TestTrait.php" {
        var d := DirectoryPath("tests", "interfaces");
        path := d + Separator + name + "TestTrait.php";
      } else if templateName == "Test.php" {
        var d := DirectoryPath("tests", "classes");
        path := d + Separator + name + "Test.php";
      } else if templateName == "Interface.php" {
        var d := DirectoryPath("src", "interfaces");
        path := d + Separator + name + ".php";
      } else if templateName == "Class.php" {
        var d := DirectoryPath("src", "classes");
        path := d + Separator + name + ".php";
      } else {
        path := OutputErrorMessageAndReturnEmptyString();
      }
      AppendTwice(old(output), RootNotices(Environment(), old(dirs)),
        if templateName in TemplateNames then RootNotices(Environment(), old(dirs)) else [UnknownTemplate]);
    }

    /** `createDirectoryIfItDoesNotExist`. */
    method CreateDirectoryIfItDoesNotExist(path: string)
      modifies this
      ensures State() == DirectoryEnsured(old(State()), path)
    {
      if !IsDir(dirs, path) {
        output := output + [CreatingDirectory(path)];
        dirs := MakeDirectories(dirs, path);
      }
    }

    /** `createExpectedDirectories`. */
    method CreateExpectedDirectories()
      modifies this
      ensures State() == ExpectedDirectoriesEnsured(Environment(), old(State()))
    {
      var p := DirectoryPath("tests", "interfaces");
      CreateDirectoryIfItDoesNotExist(p);
      p := DirectoryPath("tests", "classes");
      CreateDirectoryIfItDoesNotExist(p);
      p := DirectoryPath("src", "interfaces");
      CreateDirectoryIfItDoesNotExist(p);
      p := DirectoryPath("src", "classes");
      CreateDirectoryIfItDoesNotExist(p);
    }

    /** `createNewFile`. */
    method CreateNewFile(path: string, content: string)
      modifies this
      ensures State() == FileWritten(old(State()), path, content)
    {
      if FileExists(dirs, files, path) {
        output := output + [FileAlreadyExists(path)];
      }
      output := output + [Writing(path)];
      if Normalize(path) !in dirs {
        files := files[Normalize(path) := content];
      }
    }

    /** `generateSourceCodeFromTemplate`. */
    method GenerateSourceCodeFromTemplate(templatePath: string) returns (code: string)
      modifies this
      ensures (State(), code) == Generated(Environment(), old(State()), templatePath)
    {
      if templatePath == "" {
        status := Exited(FatalErrorExit);
        return "";
      }
      var template := if templatePath in files then files[templatePath] else "";
      code := Render(template, args);
    }

    /** One pass of the loop in `createNewClassFiles`: the target, then the rendered file. */
    method ProcessTemplate(t: (string, string))
      modifies this
      ensures State() == TemplateProcessed(Environment(), old(State()), t)
    {
      var target := PathForFile(t.0);
      if !Empty(target) {
        var code := GenerateSourceCodeFromTemplate(t.1);
        if status != Running {
          return;
        }
        CreateNewFile(target, code);
      }
    }

    /** `createNewClassFiles`. */
    method CreateNewClassFiles()
      modifies this
      ensures State() == Run(Environment(), old(State()))
    {
      CheckArguments();
      if status != Running {
        return;
      }
      CreateExpectedDirectories();
      var ts := TemplatePaths(files, toolDir);
      ghost var w2 := State();
      var i := 0;
      while i < |ts| && status == Running
        invariant 0 <= i <= |ts|
        invariant TemplatesFrom(Environment(), State(), ts, i) == TemplatesFrom(Environment(), w2, ts, 0)
        decreases |ts| - i
      {
        ProcessTemplate(ts[i]);
        i := i + 1;
      }
    }
  }
}
