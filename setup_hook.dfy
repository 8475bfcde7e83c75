/** The setup pre-launch hook: it finds the Python 3 home Fusion is to use,
    points Fusion at it, puts it on `PATH` for Fusion 18 and later, and
    publishes the addon root. The file system is outside the model:
    `os.path.normpath` and `os.path.isdir` are parameters. */
module SetupHook {
  import opened Wrappers
  import Strings
  import opened Launch
  import opened Addon

  /** The version the hook works with: the one in the application name, or
      the fallback version when the name has none. */
  function SetupVersion(env: map<string, string>): (v: int)
    ensures v in FusionVersions
    ensures GetFusionVersion(AppName(env)).None? ==> v == FallbackVersion
    ensures GetFusionVersion(AppName(env)).Some? ==> v == GetFusionVersion(AppName(env)).value
  {
    var version := GetFusionVersion(AppName(env));
    if version.None? then FallbackVersion else version.value
  }

  /** The first entry that, normalised, is a directory, normalised. */
  function FirstDir(paths: seq<string>, normpath: string -> string, isDir: string -> bool): (dir: Option<string>)
    ensures dir.Some? ==> (isDir(dir.value) &&
      exists i :: 0 <= i < |paths| && dir.value == normpath(paths[i]) &&
        (forall j :: 0 <= j < i ==> !isDir(normpath(paths[j]))))
    ensures dir.None? ==> forall i :: 0 <= i < |paths| ==> !isDir(normpath(paths[i]))
  {
    if paths == [] then None
    else if isDir(normpath(paths[0])) then Some(normpath(paths[0]))
    else
      var rest := FirstDir(paths[1..], normpath, isDir);
      assert forall i :: 1 <= i < |paths| ==> paths[i] == paths[1..][i - 1];
      if rest.Some? then
        ghost var i :| 0 <= i < |paths[1..]| && rest.value == normpath(paths[1..][i]) &&
          forall j :: 0 <= j < i ==> !isDir(normpath(paths[1..][j]));
        assert rest.value == normpath(paths[i + 1]);
        rest
      else rest
  }

  /** The `for ... else` loop over the entries of the Python home variable:
      the first entry that is a directory once normalised, or nothing. */
  method FindPython3Dir(home: string, pathsep: char, normpath: string -> string, isDir: string -> bool)
    returns (dir: Option<string>)
    ensures dir == FirstDir(Strings.Split(home, pathsep), normpath, isDir)
  {
    var paths := Strings.Split(home, pathsep);
    var i := 0;
    while i < |paths|
      invariant 0 <= i <= |paths|
      invariant FirstDir(paths[i..], normpath, isDir) == FirstDir(paths, normpath, isDir)
    {
      var candidate := normpath(paths[i]);
      if isDir(candidate) {
        return Some(candidate);
      }
      assert paths[i..][1..] == paths[i + 1..];
      i := i + 1;
    }
    return None;
  }

  /** What the hook leaves behind: the environment, the launch data, and the
      error that stopped it, if any. */
  datatype SetupOutcome = SetupOutcome(env: map<string, string>, data: map<string, string>, error: Option<LaunchError>)

  /** The outcome of `FusionPrelaunch.execute()`. */
  function SetupLaunch(env: map<string, string>, data: map<string, string>, addonRoot: string, pathsep: char,
                       normpath: string -> string, isDir: string -> bool): SetupOutcome
  {
    var version := SetupVersion(env);
    var py3Var := FusionVersions[version].0;
    var home := GetOr(env, py3Var, "");
    var dir := FirstDir(Strings.Split(home, pathsep), normpath, isDir);
    if dir.None? then SetupOutcome(env, data, Some(Python3NotFound(home)))
    else
      var withHome := env[py3Var := dir.value];
      if version >= 18 && "PATH" !in withHome then SetupOutcome(withHome, data, Some(MissingVariable("PATH")))
      else
        var withPath := if version >= 18 then withHome["PATH" := withHome["PATH"] + [pathsep] + dir.value] else withHome;
        SetupOutcome(withPath[py3Var := dir.value]["AYON_FUSION_ROOT" := addonRoot],
                     data["fusion_python3_home" := dir.value], None)
  }

  /** `FusionPrelaunch.execute()`. */
  method Execute(ctx: LaunchContext, addonRoot: string, pathsep: char, normpath: string -> string, isDir: string -> bool)
    returns (r: Result<(), LaunchError>)
    modifies ctx`env, ctx`data
    ensures var outcome := SetupLaunch(old(ctx.env), old(ctx.data), addonRoot, pathsep, normpath, isDir);
      ctx.env == outcome.env && ctx.data == outcome.data &&
      (r.Failure? <==> outcome.error.Some?) && (r.Failure? ==> r.error == outcome.error.value)
  {
    var appName := AppName(ctx.env);
    var version := GetFusionVersion(appName);
    var appVersion := if version.None? then FallbackVersion else version.value;
    var py3Var := FusionVersions[appVersion].0;
    var home := GetOr(ctx.env, py3Var, "");
    var dir := FindPython3Dir(home, pathsep, normpath, isDir);
    if dir.None? {
      return Failure(Python3NotFound(home));
    }
    ctx.env := ctx.env[py3Var := dir.value];
    if appVersion >= 18 {
      if "PATH" !in ctx.env {
        return Failure(MissingVariable("PATH"));
      }
      ctx.env := ctx.env["PATH" := ctx.env["PATH"] + [pathsep] + dir.value];
    }
    ctx.env := ctx.env[py3Var := dir.value];
    ctx.data := ctx.data["fusion_python3_home" := dir.value];
    ctx.env := ctx.env["AYON_FUSION_ROOT" := addonRoot];
    return Success(());
  }

  /** The launch stops with `ApplicationLaunchFailed` exactly when no entry
      of the Python home variable is a directory, and then nothing has been
      written. */
  lemma SetupFailsWithoutDir(env: map<string, string>, data: map<string, string>, addonRoot: string, pathsep: char,
                             normpath: string -> string, isDir: string -> bool)
    ensures var outcome := SetupLaunch(env, data, addonRoot, pathsep, normpath, isDir);
      var py3Var := FusionVersions[SetupVersion(env)].0;
      var entries := Strings.Split(GetOr(env, py3Var, ""), pathsep);
      ((outcome.error.Some? && outcome.error.value.Python3NotFound?) <==>
        forall i :: 0 <= i < |entries| ==> !isDir(normpath(entries[i]))) &&
      ((outcome.error.Some? && outcome.error.value.Python3NotFound?) ==> outcome.env == env && outcome.data == data)
  {
    var outcome := SetupLaunch(env, data, addonRoot, pathsep, normpath, isDir);
    var py3Var := FusionVersions[SetupVersion(env)].0;
    var entries := Strings.Split(GetOr(env, py3Var, ""), pathsep);
  }

  /** The Python home variables are neither `PATH` nor `AYON_FUSION_ROOT`. */
  lemma PythonHomeVariables(version: int)
    requires version in FusionVersions
    ensures FusionVersions[version].0 != "PATH" && FusionVersions[version].0 != "AYON_FUSION_ROOT"
  {
    VersionTable();
    assert |FusionVersions[version].0| > |"AYON_FUSION_ROOT"|;
  }

  /** After a successful setup the Python home variable and the launch data
      hold the directory found, and the addon root is published. */
  lemma SetupWritesHome(env: map<string, string>, data: map<string, string>, addonRoot: string, pathsep: char,
                        normpath: string -> string, isDir: string -> bool)
    requires SetupLaunch(env, data, addonRoot, pathsep, normpath, isDir).error.None?
    ensures var outcome := SetupLaunch(env, data, addonRoot, pathsep, normpath, isDir);
      var py3Var := FusionVersions[SetupVersion(env)].0;
      var dir := FirstDir(Strings.Split(GetOr(env, py3Var, ""), pathsep), normpath, isDir);
      dir.Some? &&
      py3Var in outcome.env && outcome.env[py3Var] == dir.value &&
      outcome.data == data["fusion_python3_home" := dir.value] &&
      "AYON_FUSION_ROOT" in outcome.env && outcome.env["AYON_FUSION_ROOT"] == addonRoot
  {
    PythonHomeVariables(SetupVersion(env));
  }

  /** After a successful setup `PATH` ends in the directory found for version
      18 and later, and is untouched before. */
  lemma SetupExtendsPath(env: map<string, string>, data: map<string, string>, addonRoot: string, pathsep: char,
                         normpath: string -> string, isDir: string -> bool)
    requires SetupLaunch(env, data, addonRoot, pathsep, normpath, isDir).error.None?
    ensures var outcome := SetupLaunch(env, data, addonRoot, pathsep, normpath, isDir);
      var version := SetupVersion(env);
      var dir := FirstDir(Strings.Split(GetOr(env, FusionVersions[version].0, ""), pathsep), normpath, isDir);
      dir.Some? &&
      (version >= 18 ==> "PATH" in env && "PATH" in outcome.env && outcome.env["PATH"] == env["PATH"] + [pathsep] + dir.value) &&
      (version < 18 ==> ("PATH" in outcome.env <==> "PATH" in env) && ("PATH" in env ==> outcome.env["PATH"] == env["PATH"]))
  {
    PythonHomeVariables(SetupVersion(env));
  }

  /** A successful setup changes no variable but the Python home, `PATH` and
      `AYON_FUSION_ROOT`. */
  lemma SetupKeepsOthers(env: map<string, string>, data: map<string, string>, addonRoot: string, pathsep: char,
                         normpath: string -> string, isDir: string -> bool, key: string)
    requires SetupLaunch(env, data, addonRoot, pathsep, normpath, isDir).error.None?
    requires key != FusionVersions[SetupVersion(env)].0 && key != "PATH" && key != "AYON_FUSION_ROOT"
    ensures var outcome := SetupLaunch(env, data, addonRoot, pathsep, normpath, isDir);
      (key in outcome.env <==> key in env) && (key in env ==> outcome.env[key] == env[key])
  {
  }

  /** The launch stops with a `KeyError` exactly when a directory was found,
      the version is 18 or later and `PATH` is not defined; by then the Python
      home variable has already been written. */
  lemma SetupMissingPath(env: map<string, string>, data: map<string, string>, addonRoot: string, pathsep: char,
                         normpath: string -> string, isDir: string -> bool)
    ensures var outcome := SetupLaunch(env, data, addonRoot, pathsep, normpath, isDir);
      var version := SetupVersion(env);
      var py3Var := FusionVersions[version].0;
      var dir := FirstDir(Strings.Split(GetOr(env, py3Var, ""), pathsep), normpath, isDir);
      (outcome.error == Some(MissingVariable("PATH")) <==> dir.Some? && version >= 18 && "PATH" !in env) &&
      (outcome.error == Some(MissingVariable("PATH")) ==> outcome.env == env[py3Var := dir.value] && outcome.data == data)
  {
    VersionTable();
  }

  /** An unset or empty Python home variable is one empty entry: the hook
      then uses the normalised empty path whenever that is a directory (for
      `os.path.normpath` it is `.`, the working directory). */
  lemma UnsetHomeUsesNormalisedEmpty(env: map<string, string>, data: map<string, string>, addonRoot: string, pathsep: char,
                                     normpath: string -> string, isDir: string -> bool)
    requires !IsSet(env, FusionVersions[SetupVersion(env)].0)
    requires isDir(normpath(""))
    ensures var outcome := SetupLaunch(env, data, addonRoot, pathsep, normpath, isDir);
      outcome.error.None? || outcome.error == Some(MissingVariable("PATH"))
    ensures var outcome := SetupLaunch(env, data, addonRoot, pathsep, normpath, isDir);
      outcome.env[FusionVersions[SetupVersion(env)].0] == normpath("")
  {
    var py3Var := FusionVersions[SetupVersion(env)].0;
    assert GetOr(env, py3Var, "") == "";
    assert Strings.Split("", pathsep) == [""];
    VersionTable();
  }
}
