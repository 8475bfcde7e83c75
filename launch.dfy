/** The launch context the pre-launch hooks write into: the environment the
    application will be started with, its command line arguments and the
    launch data the hooks share. */
module Launch {
  import opened Wrappers

  class LaunchContext {
    /** `launch_context.env`. */
    var env: map<string, string>
    /** `launch_context.launch_args`. */
    var launchArgs: seq<string>
    /** The hooks' shared `data` dictionary (only string entries are modelled). */
    var data: map<string, string>

    constructor (env: map<string, string>, launchArgs: seq<string>, data: map<string, string>)
      ensures this.env == env && this.launchArgs == launchArgs && this.data == data
    {
      this.env := env;
      this.launchArgs := launchArgs;
      this.data := data;
    }
  }

  /** Why a pre-launch hook stops the launch: `ApplicationLaunchFailed`
      for a name without a supported version or for a Python home that is not
      a directory, or a `KeyError` for a variable the hook reads with `[]`. */
  datatype LaunchError =
    | UnknownFusionVersion(appName: Option<string>)
    | Python3NotFound(home: string)
    | MissingVariable(key: string)

  /** `env.get(key)` treated as a truth value: present and not empty. */
  predicate IsSet(env: map<string, string>, key: string) {
    key in env && env[key] != ""
  }

  /** `env.get(key, default)`. */
  function GetOr(env: map<string, string>, key: string, default: string): (v: string)
    ensures key in env ==> v == env[key]
    ensures key !in env ==> v == default
  {
    if key in env then env[key] else default
  }

  /** `launch_context.env.get("AYON_APP_NAME")`. */
  function AppName(env: map<string, string>): (name: Option<string>)
    ensures name.Some? <==> "AYON_APP_NAME" in env
  {
    if "AYON_APP_NAME" in env then Some(env["AYON_APP_NAME"]) else None
  }
}
