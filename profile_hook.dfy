/** The profile pre-launch hook: it checks that the application names a
    supported Fusion version, points Fusion at the AYON profile directory when
    one is configured, and sets the `MasterPrefs` variable that makes Fusion
    load the AYON shared preferences. */
module ProfileHook {
  import opened Wrappers
  import Strings
  import Paths
  import opened Launch
  import opened Addon

  /** `FUSION<profile>_PROFILE`, the profile name variable. */
  function ProfileVariable(profileVersion: int): string {
    "FUSION" + Strings.IntToString(profileVersion) + "_PROFILE"
  }

  /** `FUSION<profile>_PROFILE_DIR`, the profile directory variable. */
  function ProfileDirVariable(profileVersion: int): string {
    "FUSION" + Strings.IntToString(profileVersion) + "_PROFILE_DIR"
  }

  /** `FUSION<profile>_MasterPrefs`, the master preferences variable. */
  function MasterPrefsVariable(profileVersion: int): string {
    "FUSION" + Strings.IntToString(profileVersion) + "_MasterPrefs"
  }

  /** The three variables of one profile version are different variables. */
  lemma ProfileVariablesDistinct(profileVersion: int)
    ensures ProfileVariable(profileVersion) != ProfileDirVariable(profileVersion)
    ensures ProfileVariable(profileVersion) != MasterPrefsVariable(profileVersion)
    ensures ProfileDirVariable(profileVersion) != MasterPrefsVariable(profileVersion)
  {
    var head := "FUSION" + Strings.IntToString(profileVersion);
    assert ProfileVariable(profileVersion) == head + "_PROFILE";
    assert ProfileDirVariable(profileVersion) == head + "_PROFILE_DIR";
    assert MasterPrefsVariable(profileVersion) == head + "_MasterPrefs";
    assert |ProfileVariable(profileVersion)| < |ProfileDirVariable(profileVersion)|;
    assert ProfileVariable(profileVersion)[|head| + 1] == 'P';
    assert MasterPrefsVariable(profileVersion)[|head| + 1] == 'M';
    assert ProfileDirVariable(profileVersion)[|head| + 1] == 'P';
  }

  /** `get_fusion_profile_name(profile_version)`: the process environment's
      profile name variable, `Default` when it is not defined. */
  function ProfileName(processEnv: map<string, string>, profileVersion: int): (name: string)
    ensures ProfileVariable(profileVersion) !in processEnv ==> name == "Default"
    ensures ProfileVariable(profileVersion) in processEnv ==> name == processEnv[ProfileVariable(profileVersion)]
  {
    GetOr(processEnv, ProfileVariable(profileVersion), "Default")
  }

  /** `get_fusion_profile_dir(profile_version)`: the profile named by the
      process environment inside its profile directory variable, when that
      variable is set and names a directory. */
  function ProfileDir(processEnv: map<string, string>, profileVersion: int, isDir: string -> bool): (dir: Option<string>)
    ensures dir.Some? <==> (IsSet(processEnv, ProfileDirVariable(profileVersion)) &&
                            isDir(processEnv[ProfileDirVariable(profileVersion)]))
  {
    var key := ProfileDirVariable(profileVersion);
    if IsSet(processEnv, key) && isDir(processEnv[key]) then
      Some(Paths.Join2(processEnv[key], ProfileName(processEnv, profileVersion)))
    else None
  }

  /** The profile directory ends in the profile's name when that name is a
      plain file name. */
  lemma ProfileDirEndsInName(processEnv: map<string, string>, profileVersion: int, isDir: string -> bool)
    requires ProfileDir(processEnv, profileVersion, isDir).Some?
    requires var name := ProfileName(processEnv, profileVersion); name != [] && '/' !in name
    ensures Paths.Basename(ProfileDir(processEnv, profileVersion, isDir).value) == ProfileName(processEnv, profileVersion)
  {
    var key := ProfileDirVariable(profileVersion);
    Paths.BasenameJoin(processEnv[key], ProfileName(processEnv, profileVersion));
  }

  // ---------------------------------------------------------------------
  // get_copy_fusion_prefs_settings

  /** The `copy_fusion_settings` block of the project settings; a key that is
      not there, or a block that is not there, is `None`. */
  datatype CopySettings = CopySettings(copyStatus: Option<bool>, copyPath: Option<string>, forceSync: Option<bool>)

  /** What `get_copy_fusion_prefs_settings` returns. */
  datatype CopyPrefs = CopyPrefs(copyStatus: bool, copyPath: Option<string>, forceSync: bool)

  /** `get_copy_fusion_prefs_settings()`: both flags default to false, an empty
      or missing copy path becomes `None`, and any other path is read as a
      path with `~` expanded (`asPath`). */
  function GetCopyPrefs(settings: CopySettings, asPath: string -> string): (prefs: CopyPrefs)
    ensures prefs.copyStatus <==> settings.copyStatus == Some(true)
    ensures prefs.forceSync <==> settings.forceSync == Some(true)
    ensures prefs.copyPath.None? <==> settings.copyPath.None? || settings.copyPath.value == ""
    ensures prefs.copyPath.Some? ==> prefs.copyPath.value == asPath(settings.copyPath.value)
  {
    var path := if settings.copyPath.Some? && settings.copyPath.value != "" then Some(asPath(settings.copyPath.value)) else None;
    CopyPrefs(settings.copyStatus.GetOr(false), path, settings.forceSync.GetOr(false))
  }

  // ---------------------------------------------------------------------
  // _set_master_prefs_variable

  /** How the hook treats an existing master preferences value. */
  datatype MasterPrefsMode = DoNotSet | Set | Append | Prepend

  /** The `set_fusion_master_prefs` hook setting: `set` when it is missing, and
      any value other than the four known ones also overwrites the variable. */
  function ModeOf(setting: Option<string>): (mode: MasterPrefsMode)
    ensures mode == DoNotSet <==> setting == Some("do-not-set")
    ensures mode == Append <==> setting == Some("append")
    ensures mode == Prepend <==> setting == Some("prepend")
  {
    match setting
    case None => Set
    case Some(s) =>
      if s == "do-not-set" then DoNotSet
      else if s == "append" then Append
      else if s == "prepend" then Prepend
      else Set
  }

  /** The shared preferences file, `deploy/ayon/fusion_shared.prefs` in the
      addon. */
  function MasterPrefsPath(addonRoot: string): (path: string)
    ensures Paths.Basename(path) == "fusion_shared.prefs"
  {
    var dir := Paths.Join2(Paths.Join2(addonRoot, "deploy"), "ayon");
    Paths.BasenameJoin(dir, "fusion_shared.prefs");
    Paths.Join2(dir, "fusion_shared.prefs")
  }

  /** The value the hook writes, given the variable's current value: the
      shared preferences after a non-empty current value (append), before it
      (prepend), or alone (set, or nothing to keep). */
  function MasterPrefsValue(mode: MasterPrefsMode, existing: Option<string>, prefs: string, pathsep: char): (v: string)
    requires mode != DoNotSet
    ensures mode == Append && existing.Some? && existing.value != "" ==> v == existing.value + [pathsep] + prefs
    ensures mode == Prepend && existing.Some? && existing.value != "" ==> v == prefs + [pathsep] + existing.value
    ensures mode == Set || existing.None? || existing.value == "" ==> v == prefs
  {
    var current := existing.GetOr("");
    if mode == Append && current != "" then current + [pathsep] + prefs
    else if mode == Prepend && current != "" then prefs + [pathsep] + current
    else prefs
  }

  /** The environment after writing `prefs` into `key` in the given mode:
      only `key` can change, `do-not-set` changes nothing, and any other mode
      writes `key`. */
  function WritePrefs(env: map<string, string>, key: string, mode: MasterPrefsMode, prefs: string, pathsep: char): (after: map<string, string>)
    ensures mode == DoNotSet ==> after == env
    ensures mode != DoNotSet ==> key in after
    ensures forall other :: other != key ==>
      (other in after <==> other in env) && (other in env ==> after[other] == env[other])
  {
    if mode == DoNotSet then env
    else
      var existing := if key in env then Some(env[key]) else None;
      env[key := MasterPrefsValue(mode, existing, prefs, pathsep)]
  }

  /** The environment after `_set_master_prefs_variable`. */
  function MasterPrefsEnv(env: map<string, string>, profileVersion: int, setting: Option<string>, addonRoot: string, pathsep: char): map<string, string> {
    WritePrefs(env, MasterPrefsVariable(profileVersion), ModeOf(setting), MasterPrefsPath(addonRoot), pathsep)
  }

  /** `_set_master_prefs_variable(profile_version)`. */
  method SetMasterPrefsVariable(ctx: LaunchContext, profileVersion: int, setting: Option<string>, addonRoot: string, pathsep: char)
    modifies ctx`env
    ensures ctx.env == MasterPrefsEnv(old(ctx.env), profileVersion, setting, addonRoot, pathsep)
  {
    var mode := ModeOf(setting);
    var key := MasterPrefsVariable(profileVersion);
    if mode == DoNotSet {
      return;
    }
    var prefs := MasterPrefsPath(addonRoot);
    ghost var existing := if key in ctx.env then Some(ctx.env[key]) else None;
    if mode == Append || mode == Prepend {
      var existing := GetOr(ctx.env, key, "");
      if existing != "" {
        if mode == Append {
          prefs := existing + [pathsep] + prefs;
        } else {
          prefs := prefs + [pathsep] + existing;
        }
      }
    }
    assert prefs == MasterPrefsValue(mode, existing, MasterPrefsPath(addonRoot), pathsep);
    ctx.env := ctx.env[key := prefs];
  }

  /** Appending keeps every existing entry of the variable and adds the
      shared preferences as the last one; prepending adds them as the first. */
  lemma PrefsEntries(env: map<string, string>, key: string, mode: MasterPrefsMode, prefs: string, pathsep: char)
    requires mode == Append || mode == Prepend
    requires pathsep !in prefs && IsSet(env, key)
    ensures var entries := Strings.Split(WritePrefs(env, key, mode, prefs, pathsep)[key], pathsep);
      var before := Strings.Split(env[key], pathsep);
      entries == if mode == Append then before + [prefs] else [prefs] + before
  {
    Strings.SplitWithoutSep(prefs, pathsep);
    if mode == Append {
      Strings.SplitAround(env[key], prefs, pathsep);
    } else {
      Strings.SplitAround(prefs, env[key], pathsep);
    }
  }

  // ---------------------------------------------------------------------
  // execute

  /** The environment after the profile hook, or why it stops the launch. */
  function ProfileLaunchEnv(env: map<string, string>, copy: CopySettings, setting: Option<string>,
                            addonRoot: string, pathsep: char, asPath: string -> string): Result<map<string, string>, LaunchError>
  {
    var version := GetFusionVersion(AppName(env));
    if version.None? then Failure(UnknownFusionVersion(AppName(env)))
    else
      var profileVersion := FusionVersions[version.value].1;
      var prefs := GetCopyPrefs(copy, asPath);
      var withDir := if prefs.copyPath.Some? then env[ProfileDirVariable(profileVersion) := prefs.copyPath.value] else env;
      Success(MasterPrefsEnv(withDir, profileVersion, setting, addonRoot, pathsep))
  }

  /** `FusionCopyPrefsPrelaunch.execute()`, without the profile copy. */
  method Execute(ctx: LaunchContext, copy: CopySettings, setting: Option<string>,
                 addonRoot: string, pathsep: char, asPath: string -> string) returns (r: Result<(), LaunchError>)
    modifies ctx`env
    ensures var expected := ProfileLaunchEnv(old(ctx.env), copy, setting, addonRoot, pathsep, asPath);
      (r.Failure? <==> expected.Failure?) &&
      (r.Failure? ==> ctx.env == old(ctx.env) && r.error == expected.error) &&
      (r.Success? ==> ctx.env == expected.value)
  {
    var prefs := GetCopyPrefs(copy, asPath);
    var appName := AppName(ctx.env);
    var version := GetFusionVersion(appName);
    if version.None? {
      return Failure(UnknownFusionVersion(appName));
    }
    var profileVersion := FusionVersions[version.value].1;
    if prefs.copyPath.Some? {
      ctx.env := ctx.env[ProfileDirVariable(profileVersion) := prefs.copyPath.value];
    }
    SetMasterPrefsVariable(ctx, profileVersion, setting, addonRoot, pathsep);
    return Success(());
  }

  /** The launch stops exactly when the application name has no supported
      version, and every supported version reads the profile variables of 9
      or 16. */
  lemma ProfileLaunchFails(env: map<string, string>, copy: CopySettings, setting: Option<string>,
                           addonRoot: string, pathsep: char, asPath: string -> string)
    ensures var r := ProfileLaunchEnv(env, copy, setting, addonRoot, pathsep, asPath);
      (r.Failure? <==> GetFusionVersion(AppName(env)).None?) &&
      (r.Success? ==> FusionVersions[GetFusionVersion(AppName(env)).value].1 == 9 ||
                      FusionVersions[GetFusionVersion(AppName(env)).value].1 == 16)
  {
    var version := GetFusionVersion(AppName(env));
    if version.Some? {
      ProfileNumber(version.value);
    }
  }

  /** Every supported version reads the profile variables of 9 or 16. */
  lemma ProfileNumber(version: int)
    requires version in FusionVersions
    ensures FusionVersions[version].1 == 9 || FusionVersions[version].1 == 16
  {
    VersionTable();
    assert version == 9 || version >= 16;
  }

  /** The profile directory variable is written with the copy path exactly
      when a non-empty copy path is configured, and left alone otherwise. */
  lemma ProfileDirWritten(env: map<string, string>, copy: CopySettings, setting: Option<string>,
                          addonRoot: string, pathsep: char, asPath: string -> string)
    requires GetFusionVersion(AppName(env)).Some?
    ensures var after := ProfileLaunchEnv(env, copy, setting, addonRoot, pathsep, asPath).value;
      var key := ProfileDirVariable(FusionVersions[GetFusionVersion(AppName(env)).value].1);
      (copy.copyPath.Some? && copy.copyPath.value != "" ==> key in after && after[key] == asPath(copy.copyPath.value)) &&
      (copy.copyPath.None? || copy.copyPath.value == "" ==> (key in after <==> key in env) && (key in env ==> after[key] == env[key]))
  {
    var profileVersion := FusionVersions[GetFusionVersion(AppName(env)).value].1;
    ProfileVariablesDistinct(profileVersion);
  }
}
