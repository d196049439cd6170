# NewClass.php in Dafny

NewClass.php is a command-line script in PHPDarlingDevTools. It scaffolds a new
class for a Darling library by writing four files (a test trait, a test
class, an interface and a class). The run goes like this:

- It checks that the five flags `--name`, `--path`, `--rootnamespace`,
  `--subnamespace` and `--basetestname` are given.
- It picks a root directory. This is the `--path` flag, or the `tmp`
  directory next to the script when `--path` is not admissible.
- It creates `tests/interfaces`, `tests/classes`, `src/interfaces` and
  `src/classes` under the root, each followed by the sub-namespace turned
  into a relative path.
- It renders each template by replacing five placeholder tokens with the
  flag values, and writes the result to its target file.

The model has six modules:

- `PhpStrings` (php_strings.dfy): the PHP string functions the script
  depends on. These are `str_replace` with string and array arguments,
  `lcfirst` and `empty()`, each with the lemmas the other modules need.
- `Arguments` (arguments.dfy): the argument map that `getopt` returns,
  `getArgument`, and the fixed order in which the flags are checked.
- `Rendering` (rendering.dfy): `generateSourceCodeFromTemplate` once the
  template text has been read.
  - Rendering is five sequential `str_replace` passes. The module proves
    that, for templates built from underscore-free text and the five
    tokens, this equals simultaneous substitution.
  - It also proves the opposite expectation fails when a flag value is
    itself a token.
  - Two lines of the shipped templates are rendered as worked examples.
- `Layout` (layout.dfy): the pure path functions.
  - `rootPathIsValid`, `rootDirectoryPath` and the sub-directory derived
    from the sub-namespace.
  - The directory and target-file tables and `templatePaths`.
  - The file-system vocabulary: path normalisation, `is_dir`,
    `file_exists`, `mkdir -p` and `realpath`.
- `Scaffold` (scaffold.dfy): a run as a state machine over a `World`. A
  world holds the directories, the files, the notices printed so far and
  whether the process is still running. Each script function has a
  specification function giving its effect on a world.
  - The class `Scaffold.Generator` holds the same state in fields.
  - It implements every script function as a method, with the source's
    branches and the loop of `createNewClassFiles`.
  - Each method is proved to have exactly the effect of its
    specification function.
- `RunProperties` (run_properties.dfy): what a whole run does.
  - A missing flag stops the run before anything is created.
  - With all flags given, under any root, the run keeps going to the end
    exactly when all four template files exist in the model. Otherwise it
    ends with code 255. The model treats a directory at a template's path
    as missing (see the `Layout.RealPath` line under "## Left out").
  - A run removes no directory, file or notice. It may overwrite the
    contents of files that already exist.
  - `createExpectedDirectories` leaves all four directories in place
    whenever the root is settled. A settled root is a valid `--path`, or
    one of the four rejected names, which falls back to `tmp`.
  - Under `Ready` (complete flags, a running process, a settled root, the
    four templates present, and targets that are neither directories nor
    templates), the CleanRun lemma gives a clean run's exact directories,
    files and notices, and the four targets have distinct keys.
  - Under `Ready`, a second identical run changes no file and warns once
    per target.

The environment comes in as parameters and state:

- The script's own directory (`__DIR__`) is a parameter.
- The parsed flags are a parameter.
- The disk is state.
- Printed text is recorded as a `Notice`, without its wording.
- `exit` sets the status.

Where the code and its documentation disagree, the model follows the code:

- `createNewFile` prints a warning when the file exists and then
  overwrites it. It does not skip the file. `RunProperties.RerunSameDisk`
  and `RunProperties.RerunWarnsEveryFile` state what a second run then
  does.
- The five substitutions are sequential, not order-independent.
  `Rendering.RenderIsSequential` shows an input where the difference is
  visible.
- Validation only tests that each flag is present (`isset`). A flag given
  twice is an array: it passes validation, but `getArgument` returns ""
  for it, so the values are not guaranteed non-empty after validation
  (`Arguments.RepeatedFlagPassesValidation`).
- The forbidden roots include "0", because PHP `empty("0")` is true.
- `rootDirectoryPath` is evaluated again, with its warning, at every call:
  - `determineAppropriateDirectoryPath` calls it once;
  - `determineAppropriatePathForFile` calls it once for an unused
    variable and once more in the chosen arm.

  An invalid `--path` is therefore warned about several times during one
  run. Each evaluation sees the directories as they are at that moment.
- If a template file is missing (in the model, also when a directory
  sits at its path), `realpath` gives "" and
  `file_get_contents("")` throws a `ValueError`. The `catch (Exception)`
  clause does not catch that, so the process ends with exit code 255.
  Nothing else in the run throws.

## Model

| member | source | states |
|---|---|---|
| Arguments.GetArgument | NewClass.php:317-324 | the result is the flag's value when the flag is set to a string; a non-empty result means the flag is set to exactly that string, so an absent or repeated flag gives "" |
| Arguments.FirstMissingFlag | NewClass.php:346-428 | validation succeeds iff all five flags are present; otherwise the reported flag is absent and every flag checked before it, in the order name, path, rootnamespace, subnamespace, basetestname, is present |
| Arguments.FirstMissingFlagDependsOnPresenceOnly | NewClass.php:351-410 | two argument maps with the same required flags present report the same outcome, whatever the values |
| Arguments.RepeatedFlagPassesValidation | NewClass.php:317-324 | a repeated `--name` (an array) passes validation yet `getArgument` returns "" for it |
| PhpStrings.Empty | NewClass.php:145 | `empty()` on a string holds exactly for strings of at most one character that are all '0', that is for "" and "0" |
| PhpStrings.StrReplace | NewClass.php:176-180 | an empty search string or an empty subject leaves the subject as it is; a replacement as long as the search string keeps the length |
| PhpStrings.StrReplaceEach | NewClass.php:465-481 | the empty subject stays empty, and an empty list of pairs leaves the subject as it is |
| PhpStrings.Lcfirst | NewClass.php:478 | `lcfirst` keeps the length and every character but the first, and lower-cases only an ASCII capital in first place; "" stays "" |
| PhpStrings.LcfirstIdempotent | NewClass.php:478 | applying `lcfirst` twice equals applying it once |
| PhpStrings.StrReplaceAbsent | NewClass.php:465-481 | `str_replace` leaves a subject without the search string unchanged |
| PhpStrings.StrReplaceChar | NewClass.php:176-180 | replacing one character by another keeps the length and maps each position independently |
| PhpStrings.StrReplaceEachAbsent | NewClass.php:465-481 | the array form leaves a subject containing none of the search strings unchanged |
| Rendering.Render | NewClass.php:462-482 | an empty template renders to the empty text |
| Rendering.RenderIsFivePasses | NewClass.php:465-481 | rendering is the five single replacements applied in the listed order, each to the previous result |
| Rendering.RenderWithoutTokens | NewClass.php:462-482 | a template with none of the five tokens renders to itself |
| Rendering.NoTokenInsideAnother | NewClass.php:467-471 | no token occurs inside another, `__TARGET_CLASS_NAME__` inside `__LC_TARGET_CLASS_NAME__` included |
| Rendering.PassReplacesSlots | NewClass.php:465-481 | on a template of underscore-free text and tokens, one pass replaces exactly that token's occurrences and nothing else |
| Rendering.FiveSubstitutionsExpand | NewClass.php:465-481 | substituting the five placeholders one after another, in the source's order, is simultaneous substitution |
| Rendering.RenderExpands | NewClass.php:462-482 | with underscore-free flag values, rendering equals simultaneous substitution of every token by its value, `lcfirst(name)` for the lower-case token |
| Rendering.RenderLeavesNoToken | NewClass.php:462-482 | under the same conditions no token is left in the rendered text |
| Rendering.RenderIsSequential | NewClass.php:465-481 | when the name is itself the sub-namespace token, sequential rendering replaces it again, unlike simultaneous substitution |
| Rendering.TestTraitPropertyLine | templates/TestTrait.php:25 | the property line renders to `protected Widget $widget;` for the name Widget, when no flag value contains an underscore |
| Rendering.TestClassLine | templates/Test.php:9 | the class line renders to `class WidgetTest extends AppTest`, when no flag value contains an underscore |
| Layout.NormalizeIdempotent | NewClass.php:132-134 | the path normalisation behind `is_dir` and `file_exists` is idempotent |
| Layout.NormalizeShape | NewClass.php:132-134 | a normalised path has no doubled and no trailing separator, is no longer than the path, and is empty only for "" |
| Layout.CollapseConcat | NewClass.php:132-134 | collapsing doubled separators distributes over a concatenation whose seam is not two separators |
| Layout.CollapseKeepsPrefix | NewClass.php:132-134 | a prefix with no doubled separator survives the collapsing of any longer path |
| Layout.Lineage | NewClass.php:137 | `mkdir` with `recursive` leaves the path itself and only prefixes of it |
| Layout.MakeDirectories | NewClass.php:137 | `mkdir` only adds directories, and the path is a directory afterwards |
| Layout.MakeDirectoriesIdempotent | NewClass.php:137 | making the same directory twice adds nothing the second time |
| Layout.ExistenceBySpelling | NewClass.php:120-134 | `is_dir` and `file_exists` compare paths after slash normalisation only: two spellings that normalise alike give the same answers, and a directory counts as an existing file |
| Layout.ExistenceOfNormalized | NewClass.php:150-153 | a path and its normalised spelling give the same `is_dir` and `file_exists` answers |
| Layout.RootPathIsValid | NewClass.php:141-158 | a valid root is an existing directory and none of "", "0", "/" and "/home" |
| Layout.RootPathIsValidExactly | NewClass.php:141-158 | a root is valid iff it is not "", "0", "/" or "/home" and is an existing directory |
| Layout.ForbiddenRootsRejected | NewClass.php:144-169 | "", "0", "/" and "/home" are rejected whatever exists, and the root is then the `tmp` fallback |
| Layout.TmpDirectory | NewClass.php:163 | the fallback is the script's directory followed by `/tmp` |
| Layout.RootDirectoryPath | NewClass.php:160-172 | the root is the `--path` flag or the fallback, and it is the flag iff the flag is valid (or happens to equal the fallback) |
| Layout.RootDirectoryPathStable | NewClass.php:160-172 | once the root is valid or a rejected name, adding directories changes neither its validity nor the root |
| Layout.NamespaceToPath | NewClass.php:176-180 | the converted sub-namespace has the same length and no backslash |
| Layout.NamespaceToPathMaps | NewClass.php:174-181 | the conversion keeps the length, turns each backslash into '/', leaves every other character, leaves no backslash and is idempotent |
| Layout.SubDirectoryPath | NewClass.php:174-181 | the sub-directory is as long as the `--subnamespace` flag and holds no backslash |
| Layout.SubDirectoryExample | NewClass.php:335 | the documented `Baz\Bazzer` becomes `Baz/Bazzer` |
| Layout.DirectoryPath | NewClass.php:190-201 | the directory starts with the root and a separator, and is as long as its five parts and three separators |
| Layout.DirectoryPathUnderRoot | NewClass.php:190-201 | under a valid root the directory is `path/testsOrSrc/interfaceOrClass/sub`, ending in '/' when the sub-namespace is empty |
| Layout.PathForFile | NewClass.php:213-250 | a known template's target starts with the root and a separator; an unknown name gives "" |
| Layout.PathForFileEmptyIffUnknown | NewClass.php:213-250 | the target is "" exactly when the template name is not one of the four |
| Layout.PathForFileSpelled | NewClass.php:213-246 | each target is the root, '/', its quadrant's two levels, the sub-directory, '/', the name and the template's suffix |
| Layout.TargetKeyShape | NewClass.php:213-246 | each target's normalised key is the normalised root followed by its quadrant's two levels and the rest |
| Layout.TargetsDistinct | NewClass.php:213-250 | the four templates are written to four different paths, and the paths differ even after normalisation, so they are four different files |
| Layout.InterfacePathExample | NewClass.php:233-239 | with name Foo and sub-namespace `Baz\Bazzer` the interface goes to `path/src/interfaces/Baz/Bazzer/Foo.php` |
| Layout.TemplateFilePath | NewClass.php:261-267 | a template's path is the script's directory followed by `/templates/` and the template's name |
| Layout.RealPath | NewClass.php:261-267 | `realpath` gives the normalised path exactly when a file exists there (and the path is not ""), otherwise ""; a directory at the path counts as missing (see its "## Left out" line) |
| Layout.TemplatePaths | NewClass.php:257-297 | four entries, in the order TestTrait, Test, Interface, Class, each the `realpath` of that file in `templates` |
| Layout.TemplatesHaveTargets | NewClass.php:257-297 | every template `templatePaths` lists has a non-empty target, so the loop never skips one |
| Scaffold.Validated | NewClass.php:346-428 | complete flags change nothing; a missing flag adds its message and exit code 1 and leaves the disk alone |
| Scaffold.RootNotices | NewClass.php:160-172 | one evaluation of the root prints nothing iff `--path` is valid, and otherwise only the fallback warning naming both paths |
| Scaffold.DirectoryEnsured | NewClass.php:129-139 | afterwards the path is a directory; directories and output only grow; files and status are kept |
| Scaffold.QuadrantEnsured | NewClass.php:104-115 | the quadrant's directory, computed from the state before the step, exists afterwards; files and status are kept |
| Scaffold.ExpectedDirectoriesEnsured | NewClass.php:102-116 | the directory step only adds directories and notices, and touches no file or status |
| Scaffold.PathNotices | NewClass.php:213-250 | a known name prints twice what one root evaluation prints, an unknown one that once plus a last notice, the error; nothing is printed iff the name is known and the root valid |
| Scaffold.FileWritten | NewClass.php:118-126 | writing keeps the directories and the status, and only adds file names and notices |
| Scaffold.WriteNotices | NewClass.php:120-124 | one notice, or two when something exists at the path; the last always announces the write |
| Scaffold.TemplateText | NewClass.php:464 | the text read is the stored content of the template file when it exists, and a non-empty text is always that content |
| Scaffold.Generated | NewClass.php:462-482 | reading a template changes no directory, file or notice; the path "" ends the process with code 255; any other path leaves the state as it is and returns the template's text rendered with the flags |
| Scaffold.TemplateProcessed | NewClass.php:72-78 | one loop step keeps the directories, only adds file names and notices, and either keeps the status or ends with code 255 |
| Scaffold.TemplatesFrom | NewClass.php:71-79 | the loop keeps the directories and either keeps the status or ends with code 255 |
| Scaffold.Run | NewClass.php:66-93 | a run keeps the status it started with, or ends it with exit code 1 or exit code 255, and no other code |
| Scaffold.Generator.OutputMessageAndExit | NewClass.php:435-439 | prints the message and ends the process with the given code |
| Scaffold.Generator.CheckArguments | NewClass.php:346-428 | the five checks in order; the first missing flag prints its message and exits with code 1, otherwise nothing changes |
| Scaffold.Generator.RootDirectoryPath | NewClass.php:160-172 | returns the root and prints the fallback warning exactly when `--path` is invalid |
| Scaffold.Generator.DirectoryPath | NewClass.php:190-201 | returns the directory for the quadrant, printing what the root evaluation prints |
| Scaffold.Generator.OutputErrorMessageAndReturnEmptyString | NewClass.php:441-447 | prints the error and returns "" |
| Scaffold.Generator.PathForFile | NewClass.php:213-250 | returns the target of the template name, printing two root evaluations for a known name, one plus the error for an unknown one |
| Scaffold.Generator.CreateDirectoryIfItDoesNotExist | NewClass.php:129-139 | a missing directory is announced and made with its ancestors; an existing one changes nothing |
| Scaffold.Generator.CreateExpectedDirectories | NewClass.php:102-116 | the four quadrants, in the source's order, each against the directories as they then are |
| Scaffold.Generator.CreateNewFile | NewClass.php:118-126 | warns when something exists at the path, announces the write, and stores the content unless the path is a directory |
| Scaffold.Generator.GenerateSourceCodeFromTemplate | NewClass.php:462-482 | renders the template, or ends the process with code 255 when its path is "" |
| Scaffold.Generator.ProcessTemplate | NewClass.php:72-78 | one pass of the loop: the target, then, when it is not empty, the rendered template written there unless reading it ended the process |
| Scaffold.Generator.CreateNewClassFiles | NewClass.php:66-93 | validation, the directories, then the templates in order until the process ends, exactly as the specification function `Run` |
| RunProperties.MissingFlagStops | NewClass.php:69-70 | a missing flag exits with code 1 after one message, before any directory or file is created |
| RunProperties.TemplatePathsFound | NewClass.php:257-297 | an existing template is listed under its name with its normalised path |
| RunProperties.KnownTemplateStep | NewClass.php:72-77 | a step on a known template keeps running when its file was found, and otherwise ends with code 255 and writes nothing |
| RunProperties.MissingTemplateIsFatal | NewClass.php:464 | a missing TestTrait template ends the run with code 255 and no file written |
| RunProperties.TemplatesFromStatus | NewClass.php:71-79 | from any template on, the loop ends with code 255 exactly when one of the remaining template files was not found |
| RunProperties.RunStatus | NewClass.php:66-93 | with all flags given, under any root, the run is still running at the end iff all four template files exist; otherwise it ended with code 255 |
| RunProperties.TemplateProcessedExtends | NewClass.php:72-78 | one template step removes no directory, file or notice |
| RunProperties.TemplatesFromExtends | NewClass.php:71-79 | the loop removes no directory, file or notice |
| RunProperties.RunExtends | NewClass.php:66-93 | a whole run removes no directory, file name or notice |
| RunProperties.FallbackWarnedFirst | NewClass.php:164-169 | with complete flags and an invalid `--path`, the first thing the run prints is the fallback warning naming both paths |
| RunProperties.FileWrittenStores | NewClass.php:118-126 | the content is stored at the path whether or not a file was there, no other path changes, and the warning is printed exactly when something exists |
| RunProperties.FileWrittenTwice | NewClass.php:118-126 | writing the same content again changes no file and prints the warning and the notice |
| RunProperties.DirectoryEnsuredMakes | NewClass.php:129-139 | afterwards the path is a directory; only its lineage is added, each new directory with its own ancestors; files and status are kept; the notice appears iff it was missing; an existing directory changes nothing; idempotent |
| RunProperties.QuadrantStep | NewClass.php:104-115 | under a settled root each quadrant step prints the root's notices and ensures the directory computed from the first state; under a valid root it prints nothing else |
| RunProperties.ExpectedDirectoriesChain | NewClass.php:102-116 | under a settled root the four calls are the four quadrant directories in order, each after the root's notices |
| RunProperties.ExpectedDirectoriesMade | NewClass.php:102-116 | under a settled root all four quadrants exist afterwards, only their lineages are added, and the only notices are for those directories or the root |
| RunProperties.FallbackDirectories | NewClass.php:160-172 | under a rejected name the four quadrants lie inside `tmp` beside the script and exist after the directory step |
| RunProperties.FallbackTargets | NewClass.php:213-246 | under a rejected name every target lies inside `tmp` beside the script |
| RunProperties.FallbackRun | NewClass.php:66-93 | a run under a rejected `--path` keeps running, warns about the path first, makes the four quadrants inside `tmp` and stores each rendered template at its target there |
| RunProperties.CleanStep | NewClass.php:72-77 | a template step of a clean run is the write of the rendered template to its target, after the two root evaluations' notices |
| RunProperties.CleanLoop | NewClass.php:71-79 | from any template on, a clean loop performs the remaining writes in order |
| RunProperties.CleanRunWritten | NewClass.php:66-93 | a clean run is the directory step followed by the four writes, each rendered template to its target, in template order |
| RunProperties.CleanRun | NewClass.php:66-93 | a clean run keeps running, leaves the quadrants' directories, stores each rendered template at its target in order, and prints the directory notices then the root's and the write notices per template |
| RunProperties.TargetKeysDistinct | NewClass.php:213-250 | the four targets name four different files |
| RunProperties.CleanRunStores | NewClass.php:118-126 | after a clean run each target holds its own rendered template: no write overwrites another |
| RunProperties.CleanRunStaysReady | NewClass.php:66-93 | after a clean run the next run is clean too |
| RunProperties.RerunDirectories | NewClass.php:102-116 | in a second identical run the directory step makes nothing and only repeats the root's notices, none under a valid root; the targets are the same |
| RunProperties.EnsuredNoop | NewClass.php:129-139 | directory steps on directories that already exist only print the root's notices |
| RunProperties.CleanRunKeepsTemplates | NewClass.php:71-79 | a clean run leaves each template file's content exactly as it was, so the next run renders the same text |
| RunProperties.RerunSameDisk | NewClass.php:118-126 | a second identical run leaves every directory and file as the first run left them |
| RunProperties.RerunWarnsEveryFile | NewClass.php:120-124 | a second identical run prints the root's notices, then, for each target in order, the root's notices, the warning that the file exists and the write notice |
| RunProperties.RerunWarnsOnlyAboutFiles | NewClass.php:120-124 | under a valid root a second identical run prints, for each target in order, the warning that the file exists and the write notice, and nothing else |

## Left out

- The banner, `highlightText`, `exampleArgs`, `newLine` and the wording and colours of every message: presentation only. A message the script prints is recorded as a `Notice` naming what it reports.
- Scaffold.Generated: the fatal-error message PHP itself prints for the uncaught `ValueError` of `file_get_contents("")` is not recorded; the model ends the process with code 255 and adds no `Notice`, because the text comes from the runtime, not the script.
- `getopt` (`getArguments`): a call into PHP; the parsed argument map is an input.
- Layout.RealPath: a directory at a template's path is treated as missing, so `realpath` gives "" and the run ends with code 255. PHP's `realpath` returns the directory's path instead, `file_get_contents` on it gives "" with a notice, and the run goes on to write an empty rendering. `RunProperties.RunStatus`, `RunProperties.TemplatesFromStatus` and `RunProperties.MissingTemplateIsFatal` inherit this: they say "template file present", which in PHP would be "file or directory present". The model's `realpath` looks only at files because the directories present at that point are those after `createExpectedDirectories`, which would tie every status lemma to the directories that step makes.
- `realpath`, `is_dir` and `file_exists` beyond slash normalisation: a path names a directory or file by its spelling with doubled and trailing '/' removed (`realpath` finds files only, as the Layout.RealPath line above says). `.` and `..` segments and symbolic links are not resolved, so `./tests` and `tests`, or `a/../b` and `b`, are different directories in the model, unlike in PHP. Paths relative to the working directory are taken as spelled.
- `mkdir` and `file_put_contents` failures other than writing onto a directory, and the permissions 0755: neither call's result is checked by the script, and the model's disk has no permissions.
- Scaffold.FileWritten: stores the content even when the file's parent directory does not exist. This happens when `--name` contains '/', for example `a/B`: the target of the TestTrait template is then `…/tests/interfaces/<sub>/a/BTestTrait.php`, whose `a` directory is never made, so PHP's `file_put_contents` fails there while `CleanRunStores` and `FallbackRun` state that the file is stored. It also happens without '/' in `--name` when the root moves during the run: with the script in `a`, a disk holding only `a` and `--path a/tmp/tests`, the first quadrant is computed under the fallback `a/tmp` and makes `a/tmp/tests/interfaces/<sub>`, after which `a/tmp/tests` is valid, so the targets move under `a/tmp/tests/tests/…`, whose directories were never made. For a `--name` without '/' and a settled root (see the RunProperties.CleanRun line below), every parent is one of the four quadrants, which exist by then.
- The `try`/`catch` around the run and the rollback it leaves as a to-do: no modelled step throws an `Exception`, and there is no rollback to model.
- The top-level invocation of `createNewClassFiles` and the banner printed before it.
- Rendering.RenderExpands: proved only for templates whose literal text, and flag values, contain no underscore. With underscores, a token could be formed across a value and the text around it; `Rendering.RenderIsSequential` shows one such case.
- RunProperties.CleanRun: stated under `Ready`, meaning complete flags, a settled root, the templates present, and targets that are neither directories nor templates. A settled root is a valid `--path` or one of the rejected names. An invalid `--path` that names an existing file or nothing at all is not settled: a `mkdir` during the run could make it valid and move the later targets. For such roots the model states only the status (`RunStatus`), the first warning (`FallbackWarnedFirst`) and that nothing is removed (`RunExtends`), not the exact files.
- RunProperties.DirectoryEnsuredMakes: bounds the added directories by the lineage of the path instead of naming them, because the lineage depends on how the path's separators fall.
