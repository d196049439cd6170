/**
 * The command-line arguments of NewClass.php: the map that `getopt` returns,
 * the lookup `getArgument` and the order in which the five required flags
 * are checked before anything is created.
 */
module Arguments {

  /**
   * A value `getopt` can give a flag declared with a required value: a string,
   * or an array of strings when the flag is given more than once.
   */
  datatype ArgValue = Str(s: string) | Repeated(values: seq<string>)

  /** What `getopt` returned, indexed by flag name. */
  type Args = map<string, ArgValue>

  /** The outcome of checking the required flags. */
  datatype Validation = Complete | Missing(flag: string)

  /** The required flags, in the order they are checked. */
  const RequiredFlags: seq<string> := ["name", "path", "rootnamespace", "subnamespace", "basetestname"]

  /**
   * `getArgument`: the flag's value when the flag is set and its value is a
   * string, and "" otherwise (absent, or an array from a repeated flag).
   */
  function GetArgument(args: Args, name: string): (r: string)
    ensures name in args && args[name].Str? ==> r == args[name].s
    ensures r != "" ==> name in args && args[name] == Str(r)
  {
    if name in args && args[name].Str? then args[name].s else ""
  }

  /**
   * The check sequence at the start of a run: each required flag is tested
   * for presence (PHP `isset`, which holds for strings and arrays alike) in
   * the fixed order, and the first absent one is reported.
   */
  function FirstMissingFlag(args: Args): (v: Validation)
    ensures v == Complete <==> forall f :: f in RequiredFlags ==> f in args
    ensures v.Missing? ==>
      exists k :: 0 <= k < |RequiredFlags| && RequiredFlags[k] == v.flag && v.flag !in args &&
        forall j :: 0 <= j < k ==> RequiredFlags[j] in args
  {
    assert RequiredFlags[0] == "name" && RequiredFlags[1] == "path" && RequiredFlags[2] == "rootnamespace";
    assert RequiredFlags[3] == "subnamespace" && RequiredFlags[4] == "basetestname";
    if "name" !in args then Missing("name")
    else if "path" !in args then Missing("path")
    else if "rootnamespace" !in args then Missing("rootnamespace")
    else if "subnamespace" !in args then Missing("subnamespace")
    else if "basetestname" !in args then Missing("basetestname")
    else Complete
  }

  /**
   * The reported flag is determined by the set of present flags alone: two
   * argument maps that agree on which required flags are present report the
   * same missing flag, whatever values they carry.
   */
  lemma FirstMissingFlagDependsOnPresenceOnly(a: Args, b: Args)
    requires forall f :: f in RequiredFlags ==> (f in a <==> f in b)
    ensures FirstMissingFlag(a) == FirstMissingFlag(b)
  {
    assert RequiredFlags[0] == "name" && RequiredFlags[1] == "path";
    assert RequiredFlags[2] == "rootnamespace" && RequiredFlags[3] == "subnamespace";
    assert RequiredFlags[4] == "basetestname";
  }

  /**
   * Validation only tests presence: a repeated flag passes it, although
   * `getArgument` then yields "" for that flag.
   */
  lemma RepeatedFlagPassesValidation(args: Args, values: seq<string>)
    requires forall f :: f in RequiredFlags ==> f in args
    ensures FirstMissingFlag(args["name" := Repeated(values)]) == Complete
    ensures GetArgument(args["name" := Repeated(values)], "name") == ""
  {
  }
}
