/** The launch-menu pre-launch hook: when enabled, and unless the variant
    names a Fusion older than 18, it makes Fusion run the AYON menu script on
    start through the `/execute` argument. */
module LaunchMenuHook {
  import Strings
  import Paths
  import opened Launch

  /** `deploy/MenuScripts/launch_menu.py` in the addon, with every backslash
      turned into a forward slash. */
  function MenuScriptPath(addonRoot: string): (path: string)
    ensures '\\' !in path
    ensures |path| == |Paths.Join2(Paths.Join2(Paths.Join2(addonRoot, "deploy"), "MenuScripts"), "launch_menu.py")|
  {
    var joined := Paths.Join2(Paths.Join2(Paths.Join2(addonRoot, "deploy"), "MenuScripts"), "launch_menu.py");
    Strings.ReplaceChar(joined, '\\', '/')
  }

  /** The arguments that make Fusion run the menu script. */
  function MenuArgs(addonRoot: string): seq<string> {
    ["/execute", "fusion:RunScript('" + MenuScriptPath(addonRoot) + "')"]
  }

  /** The settings switch is on and the variant is either not a number or a
      number from 18 on. */
  predicate ShowsMenu(enabled: bool, variant: string) {
    enabled && (Strings.IsNumeric(variant) ==> Strings.ParseDigits(variant) >= 18)
  }

  /** `FusionLaunchMenuHook.execute()`; `enabled` is the hook's `enabled`
      setting and `variant` the application's name. */
  method Execute(ctx: LaunchContext, enabled: bool, variant: string, addonRoot: string)
    modifies ctx`launchArgs
    ensures ctx.launchArgs == if ShowsMenu(enabled, variant) then old(ctx.launchArgs) + MenuArgs(addonRoot) else old(ctx.launchArgs)
  {
    if !enabled {
      return;
    }
    if Strings.IsNumeric(variant) {
      var version := Strings.ParseDigits(variant);
      if version < 18 {
        return;
      }
    }
    var path := MenuScriptPath(addonRoot);
    var script := "fusion:RunScript('" + path + "')";
    ctx.launchArgs := ctx.launchArgs + ["/execute", script];
  }

  /** The hook adds exactly two arguments: `/execute`, then a `RunScript`
      call whose quoted path holds no backslash. */
  lemma MenuArgsShape(addonRoot: string)
    ensures var args := MenuArgs(addonRoot);
      |args| == 2 && args[0] == "/execute" &&
      var prefix := "fusion:RunScript('";
      |args[1]| == |prefix| + |MenuScriptPath(addonRoot)| + 2 &&
      args[1][..|prefix|] == prefix && args[1][|args[1]| - 2..] == "')" &&
      '\\' !in args[1][|prefix|..|args[1]| - 2]
  {
    var prefix := "fusion:RunScript('";
    var path := MenuScriptPath(addonRoot);
    var script := prefix + path + "')";
    assert script[|prefix|..|script| - 2] == path;
    assert script[..|prefix|] == prefix;
    assert script[|script| - 2..] == "')";
  }

  /** For a variant that is a version number the menu is added exactly when
      the hook is enabled and the version is 18 or later. */
  lemma {:induction false} NumericVariantGate(enabled: bool, version: nat)
    ensures ShowsMenu(enabled, Strings.NatToString(version)) <==> enabled && version >= 18
  {
    Strings.ParseNatToString(version);
  }

  /** A variant that is not a number, such as `18.5` or `studio`, skips the
      version check. */
  lemma NonNumericVariantGate(variant: string)
    requires exists i :: 0 <= i < |variant| && !Strings.IsDigit(variant[i])
    ensures ShowsMenu(true, variant)
  {
  }
}
