/** The addon's launch-side helpers: the table of supported Fusion versions,
    the version read from an application name, the default environment the
    addon adds, and the directory of its pre-launch hooks. */
module Addon {
  import opened Wrappers
  import Strings
  import Paths
  import opened Launch

  /** `FUSION_FALLBACK_VERSION`. */
  const FallbackVersion := 19

  /** `FUSION_VERSIONS_DICT`: each supported major version, with the variable
      that names its Python home and the number of its profile variables. */
  const FusionVersions: map<int, (string, int)> := map[
    9 := ("FUSION_PYTHON36_HOME", 9),
    16 := ("FUSION16_PYTHON36_HOME", 16),
    17 := ("FUSION16_PYTHON36_HOME", 16),
    18 := ("FUSION_PYTHON3_HOME", 16),
    19 := ("FUSION_PYTHON3_HOME", 16)]

  /** The versions are exactly 9, 16, 17, 18 and 19, the fallback is one of
      them, and every version from 16 on reads the profile variables of 16. */
  lemma VersionTable()
    ensures FusionVersions.Keys == {9, 16, 17, 18, 19}
    ensures FallbackVersion in FusionVersions
    ensures forall v :: v in FusionVersions && v >= 16 ==> FusionVersions[v].1 == 16
    ensures forall v :: v in FusionVersions && v >= 18 ==> FusionVersions[v].0 == "FUSION_PYTHON3_HOME"
  {
  }

  /** The loop of `get_fusion_version` over the digit runs: the first run, in
      order, whose value is a supported version. */
  function FirstSupported(runs: seq<string>): (v: Option<int>)
    requires forall i :: 0 <= i < |runs| ==> Strings.AllDigits(runs[i])
    ensures v.Some? ==> (v.value in FusionVersions &&
      exists i :: 0 <= i < |runs| && Strings.ParseDigits(runs[i]) == v.value &&
        (forall j :: 0 <= j < i ==> Strings.ParseDigits(runs[j]) !in FusionVersions))
    ensures v.None? ==> forall i :: 0 <= i < |runs| ==> Strings.ParseDigits(runs[i]) !in FusionVersions
  {
    if runs == [] then None
    else if Strings.ParseDigits(runs[0]) in FusionVersions then Some(Strings.ParseDigits(runs[0]))
    else
      var v := FirstSupported(runs[1..]);
      assert forall i :: 1 <= i < |runs| ==> runs[i] == runs[1..][i - 1];
      if v.Some? then
        ghost var i :| 0 <= i < |runs[1..]| && Strings.ParseDigits(runs[1..][i]) == v.value &&
          forall j :: 0 <= j < i ==> Strings.ParseDigits(runs[1..][j]) !in FusionVersions;
        assert Strings.ParseDigits(runs[i + 1]) == v.value;
        v
      else v
  }

  /** `get_fusion_version(app_name)`: nothing for a missing or empty name or
      a name without digits, otherwise the first run of digits whose value
      is a supported version, if any. */
  function GetFusionVersion(appName: Option<string>): (v: Option<int>)
    ensures appName.None? || appName.value == "" ==> v.None?
    ensures v.Some? ==> v.value in FusionVersions
  {
    if appName.None? || appName.value == "" then None
    else
      var runs := Strings.DigitRuns(appName.value);
      if runs == [] then None else FirstSupported(runs)
  }

  /** The version found is the value of a run of the name's digits, and no
      earlier run names a supported version; no version is found exactly
      when no run does. */
  lemma VersionIsFirstSupportedRun(name: string)
    ensures var runs := Strings.DigitRuns(name);
      var v := GetFusionVersion(Some(name));
      (v.None? <==> forall i :: 0 <= i < |runs| ==> Strings.ParseDigits(runs[i]) !in FusionVersions) &&
      (v.Some? ==>
        exists i :: 0 <= i < |runs| && Strings.ParseDigits(runs[i]) == v.value &&
          (forall j :: 0 <= j < i ==> Strings.ParseDigits(runs[j]) !in FusionVersions))
  {
    var runs := Strings.DigitRuns(name);
    if name == "" {
      assert runs == [];
    }
  }

  /** A name such as `fusion18.5` gives 18: the first run is read and the
      second ignored. */
  lemma VersionOfDottedName(prefix: string)
    requires forall i :: 0 <= i < |prefix| ==> !Strings.IsDigit(prefix[i])
    ensures GetFusionVersion(Some(prefix + "18.5")) == Some(18)
  {
    Strings.DigitRunsRun("5", "");
    Strings.DigitRunsSkip(".", "5");
    assert "." + "5" == ".5";
    assert "5" + "" == "5";
    Strings.DigitRunsRun("18", ".5");
    assert "18" + ".5" == "18.5";
    Strings.DigitRunsSkip(prefix, "18.5");
    assert Strings.ParseDigits("18") == 18;
  }

  /** A name such as `fusion2023_18` skips the unsupported 2023 and gives 18. */
  lemma VersionSkipsUnsupportedRun(prefix: string)
    requires forall i :: 0 <= i < |prefix| ==> !Strings.IsDigit(prefix[i])
    ensures GetFusionVersion(Some(prefix + "2023_18")) == Some(18)
  {
    var runs := Strings.DigitRuns(prefix + "2023_18");
    assert runs == ["2023", "18"] by {
      Strings.DigitRunsSkip(prefix, "2023_18");
      TwoRuns();
    }
    SkipsUnsupported();
  }

  lemma TwoRuns()
    ensures Strings.DigitRuns("2023_18") == ["2023", "18"]
  {
    Strings.DigitRunsRun("18", "");
    assert "18" + "" == "18";
    Strings.DigitRunsSkip("_", "18");
    assert "_" + "18" == "_18";
    Strings.DigitRunsRun("2023", "_18");
    assert "2023" + "_18" == "2023_18";
  }

  lemma SkipsUnsupported()
    ensures FirstSupported(["2023", "18"]) == Some(18)
  {
    assert Strings.ParseDigits("2023") == 2023 by {
      assert "2023"[..3] == "202" && "202"[..2] == "20" && "20"[..1] == "2" && "2"[..0] == "";
    }
    assert FirstSupported(["18"]) == Some(18) by {
      assert Strings.ParseDigits("18") == 18;
    }
    assert ["2023", "18"][1..] == ["18"];
  }

  /** A name such as `fusion2023` names no supported version. */
  lemma VersionOfUnsupportedName(prefix: string)
    requires forall i :: 0 <= i < |prefix| ==> !Strings.IsDigit(prefix[i])
    ensures GetFusionVersion(Some(prefix + "2023")) == None
  {
    Strings.DigitRunsRun("2023", "");
    assert "2023" + "" == "2023";
    Strings.DigitRunsSkip(prefix, "2023");
    assert Strings.ParseDigits("2023") == 2023 by {
      assert "2023"[..3] == "202" && "202"[..2] == "20" && "20"[..1] == "2" && "2"[..0] == "";
    }
  }

  // ---------------------------------------------------------------------
  // add_implementation_envs

  /** The defaults `add_implementation_envs` adds, in order. */
  const ImplementationDefaults: seq<(string, string)> := [("AYON_LOG_NO_COLORS", "1")]

  /** The environment after the defaults: each default is written only when
      its variable is unset or empty at that point. */
  function WithDefaults(env: map<string, string>, defaults: seq<(string, string)>): map<string, string> {
    if defaults == [] then env
    else
      var before := WithDefaults(env, defaults[..|defaults| - 1]);
      var entry := defaults[|defaults| - 1];
      if IsSet(before, entry.0) then before else before[entry.0 := entry.1]
  }

  /** `add_implementation_envs(env, app)`. */
  method AddImplementationEnvs(ctx: LaunchContext)
    modifies ctx`env
    ensures ctx.env == WithDefaults(old(ctx.env), ImplementationDefaults)
  {
    var n := 0;
    while n < |ImplementationDefaults|
      invariant 0 <= n <= |ImplementationDefaults|
      invariant ctx.env == WithDefaults(old(ctx.env), ImplementationDefaults[..n])
    {
      var entry := ImplementationDefaults[n];
      assert ImplementationDefaults[..n + 1][..n] == ImplementationDefaults[..n];
      if !IsSet(ctx.env, entry.0) {
        ctx.env := ctx.env[entry.0 := entry.1];
      }
      n := n + 1;
    }
    assert ImplementationDefaults[..n] == ImplementationDefaults;
  }

  /** The keys of some defaults. */
  function DefaultKeys(defaults: seq<(string, string)>): set<string> {
    set i | 0 <= i < |defaults| :: defaults[i].0
  }

  /** Defaults never overwrite a variable that is set, and never touch a
      variable that is not one of theirs. */
  lemma {:induction false} DefaultsKeepOthers(env: map<string, string>, defaults: seq<(string, string)>, key: string)
    requires IsSet(env, key) || key !in DefaultKeys(defaults)
    ensures key in WithDefaults(env, defaults) <==> key in env
    ensures key in env ==> WithDefaults(env, defaults)[key] == env[key]
  {
    if defaults != [] {
      var prefix := defaults[..|defaults| - 1];
      assert DefaultKeys(prefix) <= DefaultKeys(defaults) by {
        forall k | k in DefaultKeys(prefix) ensures k in DefaultKeys(defaults) {
          var i :| 0 <= i < |prefix| && prefix[i].0 == k;
          assert defaults[i].0 == k;
        }
      }
      DefaultsKeepOthers(env, prefix, key);
      assert defaults[|defaults| - 1].0 in DefaultKeys(defaults);
    }
  }

  /** Afterwards every default variable is set when its default value is
      not empty. */
  lemma {:induction false} DefaultsSet(env: map<string, string>, defaults: seq<(string, string)>, i: nat)
    requires i < |defaults| && defaults[i].1 != ""
    ensures IsSet(WithDefaults(env, defaults), defaults[i].0)
  {
    var prefix := defaults[..|defaults| - 1];
    if i < |defaults| - 1 {
      DefaultsSet(env, prefix, i);
      assert prefix[i] == defaults[i];
    }
  }

  /** Adding the defaults a second time changes nothing. */
  lemma {:induction false} DefaultsIdempotent(env: map<string, string>, defaults: seq<(string, string)>)
    requires forall i :: 0 <= i < |defaults| ==> defaults[i].1 != ""
    ensures WithDefaults(WithDefaults(env, defaults), defaults) == WithDefaults(env, defaults)
  {
    var once := WithDefaults(env, defaults);
    forall i | 0 <= i < |defaults| ensures IsSet(once, defaults[i].0) {
      DefaultsSet(env, defaults, i);
    }
    AlreadySet(once, defaults);
  }

  /** Defaults whose variables are all set leave the environment as it is. */
  lemma {:induction false} AlreadySet(env: map<string, string>, defaults: seq<(string, string)>)
    requires forall i :: 0 <= i < |defaults| ==> IsSet(env, defaults[i].0)
    ensures WithDefaults(env, defaults) == env
  {
    if defaults != [] {
      AlreadySet(env, defaults[..|defaults| - 1]);
    }
  }

  /** For this addon: `AYON_LOG_NO_COLORS` becomes `"1"` exactly when it was
      unset or empty, and nothing else changes. */
  lemma NoColorsDefault(env: map<string, string>)
    ensures var after := WithDefaults(env, ImplementationDefaults);
      after == if IsSet(env, "AYON_LOG_NO_COLORS") then env else env["AYON_LOG_NO_COLORS" := "1"]
  {
    assert ImplementationDefaults[..0] == [];
  }

  // ---------------------------------------------------------------------
  // get_launch_hook_paths

  /** `get_launch_hook_paths(app)`: the addon's `hooks` directory for a
      Fusion application, nothing for any other host. */
  function LaunchHookPaths(appHostName: string, addonRoot: string): (paths: seq<string>)
    ensures paths == [] <==> appHostName != "fusion"
    ensures paths != [] ==> |paths| == 1 && Paths.Basename(paths[0]) == "hooks"
  {
    if appHostName != "fusion" then []
    else
      Paths.BasenameJoin(addonRoot, "hooks");
      [Paths.Join2(addonRoot, "hooks")]
  }
}
