# ayon-fusion core, modelled in Dafny

This project models the deterministic core of the AYON integration for the
Fusion compositor. It covers:

- the launch side: the addon's version table, `get_fusion_version`, the
  default environment and the hook directory; the profile hook
  (`FUSION<n>_MasterPrefs` in set, append, prepend and do-not-set modes, the
  profile name and the profile copy path); the setup hook (Python home
  selection with a fallback version and the `PATH` extension); and the
  launch-menu hook (the `/execute` argument and its version gate);
- the host library: `get_frame_path`, `update_frame_range`,
  `validate_comp_prefs`, the context managers `comp_lock_and_undo_chunk`,
  `maintained_comp_range` and `temp_expression`, `get_tool_resolution` and
  `update_content_on_context_change`;
- the pipeline: `imprint_container`, `parse_container`, `ls`, the event
  mapping of `_on_event`, the poller's drain loop, the `_about_to_save` flag
  and its three callbacks, `on_new`, `on_after_open`,
  `get_current_workfile`, `work_root` and the comp's context data;
- the saver creator base (`_imprint`, `get_managed_tool_data`,
  `_update_tool_with_data`, the rename step, `pass_pre_attributes_to_instance`,
  `remove_instances`, the attribute definitions), the saver creator's frame
  range definitions and `on_values_changed`, and the workfile auto-creator;
- the image-sequence and USD loaders (`preserve_inputs`, `preserve_trim`,
  `loader_shift`, `_get_start`, `load`, `update`, `remove`,
  `apply_settings`);
- the publish plugins: render collection (family tagging, expected files,
  frame representations), the saver resolution validator, and local render
  extraction (`enabled_savers`, batching by frame range, the rendered-result
  cache, representations).

Fusion's scripting object is modelled as classes `Host.Comp` and
`Host.Tool`. They hold the attributes, preferences, per-input values and the
namespaced data bag that `SetData`/`GetData` read and write, plus a trace of
the host calls made. Dotted data keys such as `avalon.loader` are paths into
a tree of values (`HostData`): a write to `ns.key` followed by a read of `ns`
returns a table that holds `key`. This is an assumption about the host. What
the host does of its own accord is a parameter of the operation that calls
it: the defaults of a new tool, the inputs Fusion resets when a Loader's
clip changes, the result of a render, the value of a probe expression,
`MapPath`, and the file-system calls `os.path.normpath` and
`os.path.isdir`. A launch is a `Launch.LaunchContext` object with the
environment, the launch arguments and the launch data. The process
environment that `os.getenv` reads is a separate map.

Context managers are pairs of methods, `Enter…` and `Exit…`. The exit has
no precondition about what the body did, so "restored even when the body
raises" is what its contract states. Dialogs are not shown: the repair
offered by a prompt is an output of the operation.

Three observations about the code, proved in the model:

- An unset or empty Python home variable splits into one empty entry, which
  `os.path.normpath` turns into `.`, the working directory. When that is a
  directory, the setup hook uses it as Fusion's Python home
  (`SetupHook.UnsetHomeUsesNormalisedEmpty`,
  client/ayon_fusion/hooks/pre_fusion_setup.py:48-55).
- `process` of the local render extractor raises only when the render
  result `is False`
  (client/ayon_fusion/plugins/publish/extract_render_local.py:75). Every batch mate is marked
  with `bool(result)` (line 144), so a falsy result that is not `False`
  lets the instance that rendered pass while its batch mates raise
  (`ExtractRenderLocal.BatchMatesAgree` states this).
- With an open comp the saver creator's custom range starts at
  `GlobalStart` and takes `RenderStart - GlobalStart` as the start handle
  (client/ayon_fusion/plugins/create/create_saver.py:122-134). After
  `update_frame_range` has widened the global range by the handles, the
  defaults therefore start at the widened frame and still carry the handles,
  so the handles are counted twice (`CreateSaver.DefaultsAfterUpdateFrameRange`).

## Model

| member | source | states |
|---|---|---|
| Addon.VersionTable | client/ayon_fusion/addon.py:14-21 | the supported versions are exactly 9, 16, 17, 18 and 19; the fallback 19 is one of them; every version from 16 on uses profile number 16; 18 and 19 read `FUSION_PYTHON3_HOME` |
| Addon.FirstSupported | client/ayon_fusion/addon.py:44-52 | the result is a supported version, the value of some digit run with no supported run before it; no result means no run is a supported version |
| Addon.GetFusionVersion | client/ayon_fusion/addon.py:24-52 | a missing or empty application name gives no version; any version returned is a key of the version table |
| Addon.VersionIsFirstSupportedRun | client/ayon_fusion/addon.py:41-52 | for any name: no version exactly when no digit run is supported; otherwise the version is the first supported run |
| Addon.VersionOfDottedName | client/ayon_fusion/addon.py:41-46 | a name such as `fusion18.5` gives 18: later runs are not read |
| Addon.VersionSkipsUnsupportedRun | client/ayon_fusion/addon.py:44-52 | a name such as `fusion2023_18` skips the unsupported run 2023 and gives 18 |
| Addon.VersionOfUnsupportedName | client/ayon_fusion/addon.py:44-52 | a name such as `fusion2023` gives no version |
| Addon.AddImplementationEnvs | client/ayon_fusion/addon.py:65-71 | the environment afterwards is the old one with each default written where its variable was unset or empty, in order |
| Addon.DefaultsKeepOthers | client/ayon_fusion/addon.py:69-71 | a variable that is set, or is not one of the defaults, keeps its presence and value |
| Addon.DefaultsSet | client/ayon_fusion/addon.py:69-71 | afterwards every default variable is set (its default is not empty) |
| Addon.DefaultsIdempotent | client/ayon_fusion/addon.py:65-71 | adding the defaults twice gives the same environment as adding them once |
| Addon.AlreadySet | client/ayon_fusion/addon.py:70 | when every default variable is already set the environment is unchanged |
| Addon.NoColorsDefault | client/ayon_fusion/addon.py:68-71 | `AYON_LOG_NO_COLORS` becomes `1` exactly when it was unset or empty, and nothing else changes |
| Addon.LaunchHookPaths | client/ayon_fusion/addon.py:60-63 | no paths exactly when the application's host is not `fusion`; otherwise one path whose last component is `hooks` |
| Launch.AppName | client/ayon_fusion/hooks/pre_fusion_setup.py:36 | the application name is present exactly when `AYON_APP_NAME` is in the environment |
| ProfileHook.ProfileVariablesDistinct | client/ayon_fusion/hooks/pre_fusion_profile_hook.py:39-45 | the profile, profile-directory and master-prefs variables of one profile number are three different names |
| ProfileHook.ProfileName | client/ayon_fusion/hooks/pre_fusion_profile_hook.py:37-39 | the profile name is the process environment's `FUSION<n>_PROFILE`, or `Default` when that is not defined |
| ProfileHook.ProfileDir | client/ayon_fusion/hooks/pre_fusion_profile_hook.py:41-53 | there is a profile directory exactly when `FUSION<n>_PROFILE_DIR` is set and names a directory |
| ProfileHook.ProfileDirEndsInName | client/ayon_fusion/hooks/pre_fusion_profile_hook.py:49-52 | that directory's last component is the profile name |
| ProfileHook.GetCopyPrefs | client/ayon_fusion/hooks/pre_fusion_profile_hook.py:78-91 | both flags are false unless set to true; the copy path is `None` exactly when it is missing or empty, otherwise the expanded path |
| ProfileHook.ModeOf | client/ayon_fusion/hooks/pre_fusion_profile_hook.py:181-185 | the mode is do-not-set, append or prepend exactly when the setting says so; a missing or unknown setting means set |
| ProfileHook.MasterPrefsPath | client/ayon_fusion/hooks/pre_fusion_profile_hook.py:195-197 | the shared preferences path ends in `fusion_shared.prefs` |
| ProfileHook.MasterPrefsValue | client/ayon_fusion/hooks/pre_fusion_profile_hook.py:198-217 | append puts a non-empty current value before the shared preferences, prepend after; set, or an unset or empty value, gives the shared preferences alone |
| ProfileHook.WritePrefs | client/ayon_fusion/hooks/pre_fusion_profile_hook.py:186-192 | do-not-set leaves the environment unchanged; any other mode writes the variable; no other variable changes |
| ProfileHook.SetMasterPrefsVariable | client/ayon_fusion/hooks/pre_fusion_profile_hook.py:178-220 | the launch environment becomes the master-prefs environment of the old one |
| ProfileHook.PrefsEntries | client/ayon_fusion/hooks/pre_fusion_profile_hook.py:201-217 | when a value is set, appending keeps its entries and adds the shared preferences last; prepending adds them first |
| ProfileHook.Execute | client/ayon_fusion/hooks/pre_fusion_profile_hook.py:132-176 | the hook fails exactly when the profile launch environment is a failure, with the same error and the environment unchanged; otherwise the environment becomes that environment |
| ProfileHook.ProfileLaunchFails | client/ayon_fusion/hooks/pre_fusion_profile_hook.py:140-151 | the launch fails exactly when the application name has no supported version; a supported version uses profile number 9 or 16 |
| ProfileHook.ProfileDirWritten | client/ayon_fusion/hooks/pre_fusion_profile_hook.py:152-163 | `FUSION<n>_PROFILE_DIR` is written with the copy path when a non-empty one is configured, and left alone otherwise |
| SetupHook.SetupVersion | client/ayon_fusion/hooks/pre_fusion_setup.py:36-45 | the version used is the one in the application name, or 19 when there is none; it is always a key of the version table |
| SetupHook.FirstDir | client/ayon_fusion/hooks/pre_fusion_setup.py:50-55 | a result is a directory, the normalised form of some entry with no directory before it; no result means no entry is a directory |
| SetupHook.FindPython3Dir | client/ayon_fusion/hooks/pre_fusion_setup.py:50-64 | the loop finds the first entry of the path-separated home that is a directory once normalised |
| SetupHook.Execute | client/ayon_fusion/hooks/pre_fusion_setup.py:33-79 | the environment, the launch data and the error match the setup outcome |
| SetupHook.SetupFailsWithoutDir | client/ayon_fusion/hooks/pre_fusion_setup.py:50-64 | the launch fails for a missing Python home exactly when no entry is a directory, and then nothing has been written |
| SetupHook.PythonHomeVariables | client/ayon_fusion/addon.py:15-21 | no Python home variable is `PATH` or `AYON_FUSION_ROOT` |
| SetupHook.SetupWritesHome | client/ayon_fusion/hooks/pre_fusion_setup.py:67-79 | after success the Python home variable and `data["fusion_python3_home"]` hold the directory found, and `AYON_FUSION_ROOT` the addon root |
| SetupHook.SetupExtendsPath | client/ayon_fusion/hooks/pre_fusion_setup.py:69-71 | after success `PATH` is the old `PATH`, the separator and the directory for version 18 and later, and untouched before |
| SetupHook.SetupKeepsOthers | client/ayon_fusion/hooks/pre_fusion_setup.py:67-79 | success changes no variable but the Python home, `PATH` and `AYON_FUSION_ROOT` |
| SetupHook.SetupMissingPath | client/ayon_fusion/hooks/pre_fusion_setup.py:67-71 | the hook stops with a `KeyError` exactly when a directory was found, the version is 18 or later and `PATH` is undefined; the Python home variable is already written then |
| SetupHook.UnsetHomeUsesNormalisedEmpty | client/ayon_fusion/hooks/pre_fusion_setup.py:48-55 | an unset or empty Python home is one empty entry, so the hook goes on with the normalised empty path when that is a directory |
| LaunchMenuHook.MenuScriptPath | client/ayon_fusion/hooks/pre_fusion_launch_menu_hook.py:31-34 | the menu script path holds no backslash and is as long as the joined path |
| LaunchMenuHook.Execute | client/ayon_fusion/hooks/pre_fusion_launch_menu_hook.py:11-36 | the launch arguments gain the menu arguments exactly when the hook is enabled and the variant is not a number below 18; otherwise they are unchanged |
| LaunchMenuHook.MenuArgsShape | client/ayon_fusion/hooks/pre_fusion_launch_menu_hook.py:31-36 | exactly two arguments are added: `/execute`, then `fusion:RunScript('<path>')` with no backslash in the path |
| LaunchMenuHook.NumericVariantGate | client/ayon_fusion/hooks/pre_fusion_launch_menu_hook.py:17-25 | for a variant that prints a version number the menu is added exactly when the hook is enabled and the version is 18 or later |
| LaunchMenuHook.NonNumericVariantGate | client/ayon_fusion/hooks/pre_fusion_launch_menu_hook.py:26-29 | an enabled hook with a variant that is not all digits adds the menu |
| Strings.DigitRunsCoverDigits | client/ayon_fusion/addon.py:41 | the digit runs, put together, are exactly the digits of the name in order |
| Strings.DigitRuns | client/ayon_fusion/addon.py:41 | every run is a non-empty string of digits |
| Strings.SplitAround | client/ayon_fusion/hooks/pre_fusion_profile_hook.py:207-216 | splitting text joined around a separator splits both sides |
| Strings.Zfill | client/ayon_fusion/plugins/publish/collect_render.py:172 | `str.zfill` never shortens: the result has the text's length or the width, whichever is larger |
| Strings.PadFrameExact | client/ayon_fusion/plugins/publish/collect_render.py:172 | a frame below ten to the padding is written in exactly that many digits, which read back the frame |
| Strings.ParseNatToString | client/ayon_fusion/hooks/pre_fusion_launch_menu_hook.py:18-19 | `int()` of a number's decimal text gives the number back |
| Strings.JoinSplit | client/ayon_fusion/hooks/pre_fusion_profile_hook.py:207-216 | splitting a path list at the separator and joining it again gives the list back |
| FusionLib.TrailingDigits | client/ayon_fusion/api/lib.py:269 | the count is the length of the run of digits that ends the text: those characters are digits and the one before them is not |
| FusionLib.FrameDigitGroup | client/ayon_fusion/api/lib.py:269-271 | a match's digit group is non-empty and no longer than the stem |
| FusionLib.GetFramePathParts | client/ayon_fusion/api/lib.py:247-278 | the extension is `splitext`'s; with a match, head, the digit run of the found padding and extension put back together are the path; without one the padding is 4 and head plus extension is the path |
| FusionLib.GetFramePathWholeRun | client/ayon_fusion/api/lib.py:266-276 | for a newline-free path the padding is the length of the whole trailing digit run (4 without one), and the head is the stem without that run, ending in a non-digit |
| FusionLib.DigitGroupWithoutNewline | client/ayon_fusion/api/lib.py:269 | without a newline the lazy pattern's group is the whole trailing digit run, and there is no match without trailing digits |
| FusionLib.GetFramePathRoundTrip | client/ayon_fusion/api/lib.py:247-278 | a head not ending in a digit, a digit run and a plain extension, put together, split back into that head, the run's width and that extension |
| FusionLib.TrailingDigitsOf | client/ayon_fusion/api/lib.py:269 | a digit run after a head not ending in a digit is the whole trailing run |
| FusionLib.GetFramePathDefaultExample | client/ayon_fusion/api/lib.py:250-251 | `C:/test.exr` gives `("C:/test", 4, ".exr")` |
| FusionLib.GetFramePathDottedDigitsExample | client/ayon_fusion/api/lib.py:253-254 | `filename.00.tif` gives `("filename.", 2, ".tif")` |
| FusionLib.GetFramePathDigitsExample | client/ayon_fusion/api/lib.py:256-257 | `foobar35.tif` gives `("foobar", 2, ".tif")` |
| FusionLib.ChunkLog | client/ayon_fusion/api/lib.py:302-314 | entering, the body's calls and leaving make exactly the lock/undo chunk around the body |
| FusionLib.EnterLockAndUndo | client/ayon_fusion/api/lib.py:308-310 | entering locks the comp, then opens the named undo chunk |
| FusionLib.ExitLockAndUndo | client/ayon_fusion/api/lib.py:312-314 | leaving unlocks, then closes the undo chunk with the keep flag |
| FusionLib.FrameRangeAttrs | client/ayon_fusion/api/lib.py:41-54 | the global range is the frame range widened by the handles (a missing handle is 0); the render range is written exactly when asked, and is then the frame range |
| FusionLib.RenderRangeWithinGlobal | client/ayon_fusion/api/lib.py:44-54 | with non-negative handles the render range written lies inside the global range, which is longer by the two handles |
| FusionLib.RenderRangeKept | client/ayon_fusion/api/lib.py:50-54 | without the render-range flag the comp's render range is kept |
| FusionLib.UpdateFrameRange | client/ayon_fusion/api/lib.py:19-57 | the comp's range gets the frame-range attributes, written once inside a kept `Script CMD` lock/undo chunk |
| FusionLib.UpdateFrameRangeExample | client/ayon_fusion/api/lib.py:44-54 | frames 1001-1050 with handles 5 and 5 give global 996-1055 and render 1001-1050 |
| FusionLib.PreservedRange | client/ayon_fusion/api/lib.py:230-239 | each of the four attributes is recorded exactly when its flag is set |
| FusionLib.MaintainedRangeRestores | client/ayon_fusion/api/lib.py:221-244 | whatever the body did, each flagged attribute gets its value from before the scope back and the others keep the body's values |
| FusionLib.ExitMaintainedRange | client/ayon_fusion/api/lib.py:243-244 | leaving writes the recorded attributes back with one `SetAttrs` call |
| FusionLib.NoMismatchIff | client/ayon_fusion/api/lib.py:143-159 | there is no diagnostic exactly when the comp holds every repaired preference with its task's value |
| FusionLib.RepairMatchesValidations | client/ayon_fusion/api/lib.py:174-180 | the repair writes the comp key of every check with the check's task value, and no other key |
| FusionLib.NoMismatchInIff | client/ayon_fusion/api/lib.py:151-159 | a list of checks gives no diagnostic exactly when every check's comp preference equals its task value |
| FusionLib.MismatchesBounded | client/ayon_fusion/api/lib.py:151-159 | at most five diagnostics, each naming a check and the comp's value for it |
| FusionLib.MismatchesInBounded | client/ayon_fusion/api/lib.py:151-159 | no more diagnostics than checks, each naming one of them |
| FusionLib.RepairClearsMismatches | client/ayon_fusion/api/lib.py:174-180 | after the repair the comp agrees with its task on all five fields |
| FusionLib.ValidateCompPrefs | client/ayon_fusion/api/lib.py:110-200 | the diagnostics are those of the comp's preferences; warnings only without forced repair; with no mismatch nothing changes; forced repair writes the five preferences in one call; otherwise the prompt offers that repair and nothing changes |
| FusionLib.TempExpressionRestores | client/ayon_fusion/api/lib.py:411-435 | an input that read non-blank gets its expression or its value back; a blank one ends with an empty value and no expression |
| FusionLib.AfterTempIdempotent | client/ayon_fusion/api/lib.py:411-435 | borrowing the input a second time leaves it as the first borrow left it |
| FusionLib.EnterTempExpression | client/ayon_fusion/api/lib.py:414-427 | entering saves the expression or value of a non-blank input, clears a saved value, and sets the temporary expression |
| FusionLib.ExitTempExpression | client/ayon_fusion/api/lib.py:429-435 | leaving puts the saved expression back, or clears the expression and writes the saved value |
| FusionLib.ToInt | client/ayon_fusion/api/lib.py:465-467 | `None` fails with the given `ValueError` message; an integer reads as itself |
| FusionLib.ToIntOfText | client/ayon_fusion/api/lib.py:465-467 | text is read as Python's `int()` reads it: a decimal numeral with white space around it reads as its value, and white space alone fails with `ValueError` |
| Strings.StripPadded | client/ayon_fusion/api/lib.py:467 | `int()` strips leading and trailing white space: stripping a padded text that neither starts nor ends with white space gives that text |
| Strings.ParseIntPadded | client/ayon_fusion/api/lib.py:467 | every integer written in decimal, with white space on either side, reads back as itself |
| Strings.ParseIntUnderscore | client/ayon_fusion/api/lib.py:467 | a single `_` between digits is ignored, as `int("1_000") == 1000` |
| Strings.ParseIntBlank | client/ayon_fusion/api/lib.py:467 | empty or all-white-space text is not an integer |
| FusionLib.GetToolResolution | client/ayon_fusion/api/lib.py:438-476 | the result is the probed width and height or the first failure; the comp gets one lock/undo chunk that is not kept; the `Comments` input ends as the two borrows leave it |
| FusionLib.RetargetAligns | client/ayon_fusion/api/lib.py:327-333 | after retargeting, a set `folderPath` or `task` equals the current context, an unset one is kept, and no key is added or changed otherwise |
| FusionLib.RetargetIdempotent | client/ayon_fusion/api/lib.py:327-333 | retargeting twice is retargeting once |
| FusionLib.UpdateContentOnContextChange | client/ayon_fusion/api/lib.py:317-335 | every instance's data becomes its retargeted data |
| FusionPipeline.ContainerEntriesMap | client/ayon_fusion/api/pipeline.py:290-298 | the seven entries written, read as a table, are `schema`, `id`, `name`, `namespace`, `loader` (each `str()` of its argument), the representation id and the project name |
| FusionPipeline.DataWrites | client/ayon_fusion/api/pipeline.py:300-301 | one `SetData("avalon.<key>", value)` per entry, in the entries' order |
| FusionPipeline.ImprintContainer | client/ayon_fusion/api/pipeline.py:267-301 | the tool's store gets exactly the seven `avalon.<key>` entries, and the tool records exactly those seven writes in order |
| FusionPipeline.SetEntries | client/ayon_fusion/api/pipeline.py:300-301 | each entry is written into the namespace's table and recorded as one write, in order |
| FusionPipeline.ImprintMerges | client/ayon_fusion/api/pipeline.py:300-301 | imprinting merges the seven entries into whatever `avalon` table was there, overriding only those keys |
| FusionPipeline.ParseAvalon | client/ayon_fusion/api/pipeline.py:311-327 | a container is returned only when `avalon` is a table holding all six required keys; it holds exactly those keys plus `project_name` when present, with the stored values |
| FusionPipeline.ContainerOf | client/ayon_fusion/api/pipeline.py:304-335 | a tool parses exactly when its `avalon` table does, and the container carries the tool's name as `objectName` and the tool itself |
| FusionPipeline.ParseFullTable | client/ayon_fusion/api/pipeline.py:316-327 | a table with every required key and `project_name` parses to exactly those seven keys |
| FusionPipeline.ParseAfterImprint | client/ayon_fusion/api/pipeline.py:267-335 | parsing what was imprinted gives back exactly the seven imprinted entries, whatever was stored before |
| FusionPipeline.ParseAfterRepresentationUpdate | client/ayon_fusion/plugins/load/load_sequence.py:260 | rewriting `avalon.representation` on a container changes its `representation` field and nothing else |
| FusionPipeline.SetRepresentation | client/ayon_fusion/plugins/load/load_usd.py:73-74 | the store gets the new representation id as one recorded write; a container stays a container with only `representation` changed |
| FusionPipeline.ParseRejectsMissingKey | client/ayon_fusion/api/pipeline.py:316-319 | an `avalon` table missing any required key gives no container |
| FusionPipeline.ParseRejectsNonTable | client/ayon_fusion/api/pipeline.py:311-313 | a missing or non-table `avalon` entry gives no container |
| FusionPipeline.ParseRejectsWithoutLoader | client/ayon_fusion/api/pipeline.py:316-319 | an imprint that lost its `loader` entry is rejected |
| FusionPipeline.Parsed | client/ayon_fusion/api/pipeline.py:261-262 | one parse result per tool, in tool order |
| FusionPipeline.SomesExactly | client/ayon_fusion/api/pipeline.py:263-264 | a value is kept exactly when it was present in the list |
| FusionPipeline.ContainersExactly | client/ayon_fusion/api/pipeline.py:258-264 | a container is listed exactly when some tool of the list parses to it |
| FusionPipeline.ContainersOwnTools | client/ayon_fusion/api/pipeline.py:329-333 | every listed container holds one of the listed tools and that tool's name |
| FusionPipeline.Ls | client/ayon_fusion/api/pipeline.py:246-264 | the containers of the comp's tools, in tool order |
| FusionPipeline.OnEvent | client/ayon_fusion/api/pipeline.py:423-446 | an event is emitted only for a notification, with the notification as its data, and its topic is `save`, `new` or `open` |
| FusionPipeline.OnEventTopics | client/ayon_fusion/api/pipeline.py:429-446 | `save` exactly for a save or save-as whose `success` is truthy; `new` exactly for `Comp_New`; `open` exactly for `Comp_Opened`; nothing for any other notification |
| FusionPipeline.Drain | client/ayon_fusion/api/pipeline.py:363-367 | a drain forwards no more notifications than were answered |
| FusionPipeline.DrainIsFifoPrefix | client/ayon_fusion/api/pipeline.py:363-367 | the drain forwards the answers in order, up to the first empty answer |
| FusionPipeline.CallbackInterval | client/ayon_fusion/api/pipeline.py:358 | without `AYON_FUSION_CALLBACK_INTERVAL` the delay is 1000 |
| FusionPipeline.CallbackIntervalText | client/ayon_fusion/api/pipeline.py:358 | a set `AYON_FUSION_CALLBACK_INTERVAL` holding a decimal number, with white space around it, gives that number as the delay |
| FusionPipeline.Run | client/ayon_fusion/api/pipeline.py:348-371 | nothing is emitted without the app or with an unreadable interval; otherwise the drains of the wake-ups before the first interrupted one, in order |
| FusionPipeline.DrainEvents | client/ayon_fusion/api/pipeline.py:363-367 | the inner loop forwards exactly the drain of the answers |
| FusionPipeline.EventsInOrder | client/ayon_fusion/api/pipeline.py:423-446 | there are at most as many events as notifications; each carries one of them as its data and has topic `save`, `new` or `open` |
| FusionPipeline.NonTrivial | client/ayon_fusion/api/pipeline.py:241 | the path components kept are the non-empty, non-`.` ones |
| FusionPipeline.NonTrivialConcat | client/ayon_fusion/api/pipeline.py:241 | dropping trivial components distributes over concatenation |
| FusionPipeline.NotOwnParent | client/ayon_fusion/api/pipeline.py:241 | no path is among its own parents |
| FusionPipeline.FileInDirIsChild | client/ayon_fusion/api/pipeline.py:238-243 | a file saved directly in the work directory has that directory among its parents |
| FusionPipeline.OneComponent | client/ayon_fusion/api/pipeline.py:241 | a plain file name is one component |
| FusionPipeline.AppendComponent | client/ayon_fusion/api/pipeline.py:241 | appending `/name` adds exactly that component |
| FusionPipeline.TrailingSlash | client/ayon_fusion/api/pipeline.py:241 | a trailing slash adds no component |
| FusionPipeline.SaveWatch.BeforeWorkfileSave | client/ayon_fusion/api/pipeline.py:224-243 | fails exactly without a work directory; the flag is raised when the work directory is a strict parent of the comp's file and is never lowered |
| FusionPipeline.SaveWatch.OnSave | client/ayon_fusion/api/pipeline.py:174-180 | the comp is validated without repair (nothing on it changes; the prompt appears exactly when there are mismatches) and the flag is lowered |
| FusionPipeline.SaveWatch.OnTaskChanged | client/ayon_fusion/api/pipeline.py:183-189 | the reset prompt is shown exactly when the flag is up |
| FusionPipeline.OnNew | client/ayon_fusion/api/pipeline.py:169-171 | afterwards the comp's preferences match its task; a comp that already matched is not touched |
| FusionPipeline.OnAfterOpen | client/ayon_fusion/api/pipeline.py:192-221 | the comp is validated without repair and left unchanged; the outdated-content popup appears exactly when containers are outdated |
| FusionPipeline.CurrentWorkfile | client/ayon_fusion/api/pipeline.py:135-141 | `None` exactly for an empty file name, otherwise the file name |
| FusionPipeline.WorkRoot | client/ayon_fusion/api/pipeline.py:143-149 | fails exactly when the session has no `AYON_WORKDIR` |
| FusionPipeline.WorkRootShape | client/ayon_fusion/api/pipeline.py:144-149 | the work directory itself without a scene directory; otherwise a path ending in the scene directory, starting with the work directory when the scene directory is relative |
| FusionPipeline.ContextData | client/ayon_fusion/api/pipeline.py:164-166 | the comp's `openpype` data when truthy, otherwise an empty table |
| FusionPipeline.UpdateContextData | client/ayon_fusion/api/pipeline.py:160-162 | the comp's `openpype` entry becomes the data and nothing else changes |
| FusionPipeline.ContextDataRoundTrip | client/ayon_fusion/api/pipeline.py:160-166 | reading after an update gives the data stored, or an empty table when that data is falsy |
| FusionPlugin.Without | client/ayon_fusion/api/plugin.py:108-110 | popping a key leaves every other entry and removes every entry with that key |
| FusionPlugin.ImprintEntries | client/ayon_fusion/api/plugin.py:107-116 | the entries written are the data without `instance_id` and `active` |
| FusionPlugin.Imprint | client/ayon_fusion/api/plugin.py:104-116 | a given `active` sets the pass-through flag to its negation (one attribute write first); every other entry but `instance_id` is written as `openpype.<key>`, in order |
| FusionPlugin.ManagedData | client/ayon_fusion/api/plugin.py:213-236 | data is returned exactly when the `openpype` entry is a table with this creator's identifier and an instance id; it then carries `active` = not pass-through, `instance_id` = the tool's name, and every other stored entry unchanged |
| FusionPlugin.ImprintRoundTrip | client/ayon_fusion/api/plugin.py:213-236 | reading back imprinted managed data gives every imprinted entry, an `active` equal to the truthiness of the one imprinted (the same value when it was a boolean) and the tool's name as instance id |
| FusionPlugin.Reconfigure | client/ayon_fusion/api/plugin.py:118-135 | a missing compared key is an error (the source's `KeyError`); the saver is reconfigured exactly when the product name, task, folder path or image format differs from the stored one |
| FusionPlugin.ReadImprinted | client/ayon_fusion/api/plugin.py:115-116 | after imprinting, reading `openpype.<key>...` gives what the data held under that key |
| FusionPlugin.UpdateAfterImprintKeeps | client/ayon_fusion/api/plugin.py:118-135 | updating a tool with the data it was imprinted with does not reconfigure it |
| FusionPlugin.FramePlaceholder | client/ayon_fusion/api/plugin.py:173 | `frame_padding` zeros: frame 0 padded to that width |
| FusionPlugin.ConfigureSaver | client/ayon_fusion/api/plugin.py:203-211 | the `Clip` input gets the output path; the tool is renamed to the product name, with a rename write only when its name differed |
| FusionPlugin.UpdateToolWithData | client/ayon_fusion/api/plugin.py:118-135 | no product name: nothing happens; a missing compared key: the error and nothing changes; nothing differs: nothing changes; otherwise the saver is reconfigured and renamed |
| FusionPlugin.PassPreAttributes | client/ayon_fusion/api/plugin.py:242-245 | `creator_attributes` becomes a copy of the pre-create values; every other key keeps its value |
| FusionPlugin.ToolOptions | client/ayon_fusion/api/plugin.py:97 | one transient tool per instance, in order |
| FusionPlugin.PresentToolsExactly | client/ayon_fusion/api/plugin.py:97-99 | a tool is deleted exactly when some removed instance holds it |
| FusionPlugin.DeleteCalls | client/ayon_fusion/api/plugin.py:99 | one `Delete` per tool, in order |
| FusionPlugin.RemoveInstances | client/ayon_fusion/api/plugin.py:93-102 | the instances leave the context, their present tools leave the comp, and one `Delete` per present tool is recorded, in order |
| FusionPlugin.RemoveInstance | client/ayon_fusion/api/plugin.py:94-102 | one instance leaves the context; its tool, when there is one, is deleted from the comp |
| FusionPlugin.RemovedInstancesGone | client/ayon_fusion/api/plugin.py:93-102 | with distinct instances, none of the removed ones is left and at most that many are gone |
| FusionPlugin.RenderTargetEnum | client/ayon_fusion/api/plugin.py:247-257 | always `local` then `frames`; `farm` is offered exactly when `farm_rendering` is an instance attribute |
| FusionPlugin.ReviewableBool | client/ayon_fusion/api/plugin.py:259-264 | the review default is on exactly when `reviewable` is an instance attribute |
| FusionPlugin.ImageFormatEnum | client/ayon_fusion/api/plugin.py:266-273 | the five formats `exr`, `tga`, `tif`, `png`, `jpg`, with the creator's format as default |
| FusionPlugin.DefaultImageFormatOffered | client/ayon_fusion/api/plugin.py:266-273 | the default format `exr` is one of the options |
| CreateSaver.FrameRangeEnumAsWritten | client/ayon_fusion/plugins/create/create_saver.py:94-107 | the options are `current_task`, `render_range`, `comp_range`, `custom_range`, with the configured option as default, unchanged |
| CreateSaver.ClassDefaultNotOffered | client/ayon_fusion/plugins/create/create_saver.py:94-107 | as written, the default `current_context` is not one of the options |
| CreateSaver.OptionKey | server/settings.py:39-45 | every settings value but `current_context` is its own option key |
| CreateSaver.FrameRangeEnum | client/ayon_fusion/plugins/create/create_saver.py:94-107 | the same four options, with the configured option's key as default |
| CreateSaver.SettingsDefaultOffered | server/settings.py:39-45 | every option the settings offer selects the option of the same position and title |
| CreateSaver.CustomFrameDefaults | client/ayon_fusion/plugins/create/create_saver.py:120-141 | without a comp 1001, 1100, 0, 0; with one, start and end are the global range and the handles reach the render range |
| CreateSaver.DefaultsAfterUpdateFrameRange | client/ayon_fusion/plugins/create/create_saver.py:122-134 | after `update_frame_range` with handles, the defaults read back the frame range and handles set |
| CreateSaver.CustomEnabled | client/ayon_fusion/plugins/create/create_saver.py:114-118 | enabled without an instance; with one, exactly when its frame-range source is `custom_range` |
| CreateSaver.CustomNumbers | client/ayon_fusion/plugins/create/create_saver.py:153-204 | the four number fields start, end, handle start, handle end, in that order, with minimum 0, no decimals, the defaults, and visible when enabled |
| CreateSaver.CustomFrameRangeDefs | client/ayon_fusion/plugins/create/create_saver.py:110-205 | the label first exactly when enabled, then the four number fields |
| CreateSaver.SaverAttrDefs | client/ayon_fusion/plugins/create/create_saver.py:74-92 | render target, review, frame-range source, image format, then the custom range definitions; the frame-range source is the corrected `FrameRangeEnum`, whose default is one of its keys (see Findings) |
| CreateSaver.PreCreateAttrDefsOrder | client/ayon_fusion/plugins/create/create_saver.py:74-83 | the pre-create page has nine definitions in that order, the custom fields visible |
| CreateSaver.InstanceDefsFollowSource | client/ayon_fusion/plugins/create/create_saver.py:85-118 | for an instance: nine definitions with the label and visible fields exactly for a custom range, else eight with hidden fields |
| CreateSaver.CustomDefsFollowSource | client/ayon_fusion/plugins/create/create_saver.py:114-202 | each number field is visible exactly when the instance's source is `custom_range` |
| CreateSaver.Instances | client/ayon_fusion/plugins/create/create_saver.py:57-59 | the instance of each change, in order |
| CreateSaver.OnValuesChanged | client/ayon_fusion/plugins/create/create_saver.py:54-72 | an instance of this creator whose change touches `creator_attributes.frame_range_source` gets its definitions rebuilt from its data; every other instance keeps its definitions |
| CreateSaver.ResetResponding | client/ayon_fusion/plugins/create/create_saver.py:57-72 | the loop resets exactly the responding instances |
| CreateSaver.ResetSnoc | client/ayon_fusion/plugins/create/create_saver.py:57-72 | one more change resets its instance exactly when it responds |
| CreateWorkfile.StoredProductName | client/ayon_fusion/plugins/create/create_workfile.py:29-32 | the stored product name, or `subset` when it is absent or `None`; without either the lookup fails (the source's `KeyError`) |
| CreateWorkfile.CollectInstances | client/ayon_fusion/plugins/create/create_workfile.py:22-40 | nothing is added without truthy workfile data; otherwise one instance backed by the comp with the stored data and product name |
| CreateWorkfile.LastStored | client/ayon_fusion/plugins/create/create_workfile.py:42-53 | a comp receives a write exactly when some update targets it while it is open |
| CreateWorkfile.SetTwice | client/ayon_fusion/plugins/create/create_workfile.py:53 | a second write of the workfile data replaces the first |
| CreateWorkfile.StoredRootSnoc | client/ayon_fusion/plugins/create/create_workfile.py:42-53 | one more update writes its data onto its comp when that comp is open and leaves the rest |
| CreateWorkfile.UpdateInstances | client/ayon_fusion/plugins/create/create_workfile.py:42-53 | each open comp ends up with the data of the last update that targeted it under `openpype_workfile`; closed comps are skipped |
| CreateWorkfile.UpdateNext | client/ayon_fusion/plugins/create/create_workfile.py:43-53 | one update writes its data onto its comp when open and changes nothing else |
| CreateWorkfile.UpdateThenCollect | client/ayon_fusion/plugins/create/create_workfile.py:22-53 | what an update stores is what collection reads back, product name included |
| CreateWorkfile.FindExisting | client/ayon_fusion/plugins/create/create_workfile.py:61-65 | the first instance of the workfile product type, or nothing when there is none |
| CreateWorkfile.NewData | client/ayon_fusion/plugins/create/create_workfile.py:83-95 | the current folder, task and variant `Main`, overridden by the dynamic data |
| CreateWorkfile.Create | client/ayon_fusion/plugins/create/create_workfile.py:55-117 | nothing without a comp; otherwise one new instance when none exists, or the first existing one moved to the current folder and task; no other instance changes |
| CreateWorkfile.Moved | client/ayon_fusion/plugins/create/create_workfile.py:104-117 | afterwards the data is in the current context; data already there is unchanged; otherwise folder, task and product name are set and the rest kept |
| CreateWorkfile.MoveToContext | client/ayon_fusion/plugins/create/create_workfile.py:104-117 | the instance's data is moved to the current context |
| LoadSequence.Snapshot | client/ayon_fusion/plugins/load/load_sequence.py:20-24 | one recorded value per named input, in the given order |
| LoadSequence.InputWrites | client/ayon_fusion/plugins/load/load_sequence.py:29-31 | one input write per recorded pair, in order |
| LoadSequence.SnapshotMap | client/ayon_fusion/plugins/load/load_sequence.py:20-24 | the recorded pairs, as a table, give each named input its value on entry |
| LoadSequence.PreservedInputsRestored | client/ayon_fusion/plugins/load/load_sequence.py:15-31 | on exit every named input has its value from entry, whatever happened inside; every other input keeps what happened inside |
| LoadSequence.EnterPreserveInputs | client/ayon_fusion/plugins/load/load_sequence.py:15-24 | records the named inputs' values on entry |
| LoadSequence.ExitPreserveInputs | client/ayon_fusion/plugins/load/load_sequence.py:28-31 | writes every recorded value back, one input write each, in order |
| LoadSequence.RestoreTrim | client/ayon_fusion/plugins/load/load_sequence.py:53-72 | the trim in written back never passes the new last frame, and the trim out never lies before the trim in |
| LoadSequence.RestoreTrimKeepsAmounts | client/ayon_fusion/plugins/load/load_sequence.py:62-72 | when the new clip is long enough both trim amounts are kept |
| LoadSequence.RestoreTrimSameClip | client/ayon_fusion/plugins/load/load_sequence.py:44-72 | with the clip unchanged the trim comes back exactly as it was |
| LoadSequence.RestoreTrimTooShort | client/ayon_fusion/plugins/load/load_sequence.py:54-64 | a clip shorter than the trim in is cut to its last frame at both ends |
| LoadSequence.EnterPreserveTrim | client/ayon_fusion/plugins/load/load_sequence.py:44-48 | records the trim in and the distance of the trim out from the last frame |
| LoadSequence.ExitPreserveTrim | client/ayon_fusion/plugins/load/load_sequence.py:53-72 | writes `ClipTimeStart` then `ClipTimeEnd` from the recorded amounts cut down to the new clip |
| LoadSequence.Replay | client/ayon_fusion/plugins/load/load_sequence.py:117-124 | one (global in, global out) state per write |
| LoadSequence.ShiftKeepsInBeforeOut | client/ayon_fusion/plugins/load/load_sequence.py:117-124 | writing in the order chosen keeps global in at or before global out after each write, and ends with both moved by the shift |
| LoadSequence.InFirstWouldCross | client/ayon_fusion/plugins/load/load_sequence.py:117-121 | for a forward shift longer than the range, writing global in first would pass global out |
| LoadSequence.ApplyTwoWrites | client/ayon_fusion/plugins/load/load_sequence.py:119-124 | two input writes apply in order, each followed by the host's compensating changes |
| LoadSequence.LoaderShift | client/ayon_fusion/plugins/load/load_sequence.py:75-126 | returns the shift (the frame, or its distance from global in); no shift changes nothing; otherwise the two writes in the safe order, then the four preserved inputs restored, so global in and out move by the shift and nothing else changes |
| LoadSequence.MoveRange | client/ayon_fusion/plugins/load/load_sequence.py:119-124 | the two writes in the order of the shift's sign |
| LoadSequence.MovedRange | client/ayon_fusion/plugins/load/load_sequence.py:108-124 | inside the preserve block global in and out move by the shift and no unprotected input changes |
| LoadSequence.ShiftedInputs | client/ayon_fusion/plugins/load/load_sequence.py:108-126 | after the block the shift outcome holds: range moved, everything else as before |
| LoadSequence.GetStart | client/ayon_fusion/plugins/load/load_sequence.py:270-294 | `frameStartHandle` when present; 0 without any start; otherwise the frame start less the handle start |
| LoadSequence.AddLoader | client/ayon_fusion/plugins/load/load_sequence.py:161-168 | a new `Loader` named as given with the mapped clip, its global in at the start and its length kept |
| LoadSequence.NewLoader | client/ayon_fusion/plugins/load/load_sequence.py:161-164 | a new `Loader` with the clip set and the name written, the host's clip inputs kept |
| LoadSequence.Load | client/ayon_fusion/plugins/load/load_sequence.py:150-176 | inside a "Create Loader" lock and undo chunk, a new loader with the clip, its global in at the version's start, and a container that parses back to the imprinted fields, the namespace falling back to the folder name |
| LoadSequence.ImprintLoader | client/ayon_fusion/plugins/load/load_sequence.py:170-176 | the new loader parses as a container with the imprinted fields |
| LoadSequence.SwapClip | client/ayon_fusion/plugins/load/load_sequence.py:236-249 | the clip is written inside `preserve_inputs`: the new path, the six protected inputs as before, the rest as the host reset them |
| LoadSequence.ClipSwapInputs | client/ayon_fusion/plugins/load/load_sequence.py:236-249 | the inputs after the swap satisfy that description |
| LoadSequence.RestoredProtected | client/ayon_fusion/plugins/load/load_sequence.py:238-245 | the six protected inputs get their values from before the swap |
| LoadSequence.RestoredOthers | client/ayon_fusion/plugins/load/load_sequence.py:236-249 | every other input keeps what the swap left |
| LoadSequence.ReplaceClip | client/ayon_fusion/plugins/load/load_sequence.py:235-249 | the clip is swapped inside `preserve_trim`: new clip length, trim restored to fit it, the host's global in and out kept |
| LoadSequence.TrimRestored | client/ayon_fusion/plugins/load/load_sequence.py:53-72 | writing the restored trim after the swap completes the replacement |
| LoadSequence.UpdateLoader | client/ayon_fusion/plugins/load/load_sequence.py:235-260 | clip replaced with trim restored, the range moved to the start, and the stored representation rewritten so the container parses with only `representation` changed |
| LoadSequence.ReplaceAndMove | client/ayon_fusion/plugins/load/load_sequence.py:235-252 | clip replaced, then the range moved to the start with its length kept |
| LoadSequence.Moved | client/ayon_fusion/plugins/load/load_sequence.py:252 | global in becomes the start, the length is kept and every other input is unchanged |
| LoadSequence.ClipReplacedGlobals | client/ayon_fusion/plugins/load/load_sequence.py:235-249 | after the replacement global in and out are what the host set |
| LoadSequence.ShiftKeepsClip | client/ayon_fusion/plugins/load/load_sequence.py:249-252 | moving the range after the replacement keeps the clip, the trim and the protected inputs |
| LoadSequence.Update | client/ayon_fusion/plugins/load/load_sequence.py:181-260 | fails, changing nothing, exactly when the tool is not a `Loader`; otherwise, inside an "Update Loader" chunk, the clip is replaced with trim and protected inputs kept, global in moved to the version's start, and the representation rewritten |
| LoadSequence.Remove | client/ayon_fusion/plugins/load/load_sequence.py:262-268 | fails exactly when the tool is not a `Loader`; otherwise the tool is deleted inside a "Remove Loader" chunk |
| LoadUsd.TupleLess | client/ayon_fusion/plugins/load/load_usd.py:36 | no version tuple is less than itself |
| LoadUsd.UsdSupportedIff | client/ayon_fusion/plugins/load/load_usd.py:36 | `(major, minor) >= (18, 5)` exactly when the major is above 18, or is 18 with a minor of at least 5 |
| LoadUsd.Plugin.ApplySettings | client/ayon_fusion/plugins/load/load_usd.py:27-37 | the loader is enabled exactly when the settings enable it and Fusion is 18.5 or later |
| LoadUsd.Load | client/ayon_fusion/plugins/load/load_usd.py:39-57 | inside a "Create tool" chunk, a new `uLoader` with the file name set and a container that parses back to the imprinted fields, the namespace falling back to the folder name |
| LoadUsd.AddUsdLoader | client/ayon_fusion/plugins/load/load_usd.py:47-57 | a new `uLoader` with the file, then the seven container writes |
| LoadUsd.NewUsdTool | client/ayon_fusion/plugins/load/load_usd.py:49-51 | a new `uLoader` whose only write is the file name |
| LoadUsd.ImprintUsd | client/ayon_fusion/plugins/load/load_usd.py:53-57 | the tool parses as a container with the imprinted fields |
| LoadUsd.Update | client/ayon_fusion/plugins/load/load_usd.py:62-74 | fails, changing nothing, exactly when the tool is not a `uLoader`; otherwise the file name and representation are rewritten inside an "Update tool" chunk, and the container keeps all but `representation` |
| LoadUsd.Remove | client/ayon_fusion/plugins/load/load_usd.py:76-82 | fails exactly when the tool is not a `uLoader`; otherwise it is deleted inside a "Remove tool" chunk |
| CollectRender.RenderFamiliesCount | client/ayon_fusion/plugins/publish/collect_render.py:107-125 | each family's count afterwards: one more `render.<target>` when it was absent, one `review` fewer on the farm when there was one, every other family as before |
| CollectRender.AddAbsentCount | client/ayon_fusion/plugins/publish/collect_render.py:111-112 | appending when absent adds one occurrence exactly when the family was absent |
| CollectRender.RenderFamiliesNoDuplicates | client/ayon_fusion/plugins/publish/collect_render.py:107-125 | families without repeats stay without repeats; the render-target family appears exactly once; on the farm no `review` is left |
| CollectRender.CollectOneBuilds | client/ayon_fusion/plugins/publish/collect_render.py:46-128 | a probe type error or a zero `AspectY` fails; otherwise the render instance carries the tool, product, source file, version, app version, the tool's resolution or the comp's format when the probe raised `ValueError`, pixel aspect `AspectX / AspectY`, the rate, the frame data, the render families, review exactly when `review` was a family, the project entity exactly for local and existing-frames targets, and farm and deadline exactly for the farm |
| CollectRender.SelectedOf | client/ayon_fusion/plugins/publish/collect_render.py:45-51 | every kept instance is active, of type `render` or `image`, and from the context |
| CollectRender.CollectedFollowSelection | client/ayon_fusion/plugins/publish/collect_render.py:44-130 | on success there is one render instance per selected instance, in context order, each the one built from its instance, and one probe per selected instance |
| CollectRender.AfterProbes | client/ayon_fusion/api/lib.py:460 | every probe adds its four lock and undo calls |
| CollectRender.GetInstances | client/ayon_fusion/plugins/publish/collect_render.py:33-130 | a missing `AspectX` or `AspectY` fails before any probe; otherwise the collection over the context, with the probes' calls recorded |
| CollectRender.CollectAll | client/ayon_fusion/plugins/publish/collect_render.py:44-130 | the loop returns the collection over the context and records each probe's calls |
| CollectRender.CollectNext | client/ayon_fusion/plugins/publish/collect_render.py:45-128 | one turn of the loop: skip, append or fail, probing exactly the selected instances |
| CollectRender.CollectSelected | client/ayon_fusion/plugins/publish/collect_render.py:53-128 | a selected instance is probed at its start frame and built |
| CollectRender.CollectFromSnoc | client/ayon_fusion/plugins/publish/collect_render.py:45-128 | the collection of a longer context is one more loop turn |
| CollectRender.CollectAdvance | client/ayon_fusion/plugins/publish/collect_render.py:45-128 | one more turn extends the prefix; a failure there is the whole collection's result |
| CollectRender.FailureSticks | client/ayon_fusion/plugins/publish/collect_render.py:45-128 | once an instance raises, the later instances do not change the outcome |
| CollectRender.PerFrameAt | client/ayon_fusion/plugins/publish/collect_render.py:168-174 | the `k`-th value is the one of frame `start + k` |
| CollectRender.ExpectedPathAt | client/ayon_fusion/plugins/publish/collect_render.py:167-176 | one path per frame, the `k`-th the one of frame `start + k` |
| CollectRender.FrameCount | client/ayon_fusion/plugins/publish/collect_render.py:168 | `range(start, end + 1)` has `end - start + 1` frames, none when the end lies before the start |
| CollectRender.GetExpectedFiles | client/ayon_fusion/plugins/publish/collect_render.py:138-176 | the output directory is the mapped clip's directory, and the files are its frames from the start less handles to the end plus handles, in order, each named head, zero-padded frame, extension |
| CollectRender.FramePaths | client/ayon_fusion/plugins/publish/collect_render.py:167-176 | the loop returns the expected path of every frame in the range |
| CollectRender.FileNameParts | client/ayon_fusion/api/lib.py:247-278 | for a newline-free path with an extension the name splits into a head that does not end in a digit, a padding of at least one and a dotted extension |
| CollectRender.HeadOfName | client/ayon_fusion/api/lib.py:247-278 | the head is a prefix of the name that does not end in a digit, and the extension is the name's |
| CollectRender.HeadStartsName | client/ayon_fusion/api/lib.py:266-278 | the head is a prefix of the name and the extension the name's |
| CollectRender.HeadEndsWithoutDigit | client/ayon_fusion/api/lib.py:266-278 | the head never ends in a digit |
| CollectRender.FrameFileName | client/ayon_fusion/plugins/publish/collect_render.py:169-174 | the file name of a frame's path is head, padded frame, extension |
| CollectRender.ExpectedFileReadsBack | client/ayon_fusion/plugins/publish/collect_render.py:165-174 | an expected file's name splits back into the same head, padding and extension, and its digits read back the frame |
| CollectRender.Basenames | client/ayon_fusion/plugins/publish/collect_render.py:198 | one file name per path, in order |
| CollectRender.FramesRepresentationOfExpected | client/ayon_fusion/plugins/publish/collect_render.py:185-209 | the representation of the expected files lists their names in frame order, names and extension are the extension without its dot, its padded `frameStart` reads back the start, and it is tagged for review exactly when the instance is |
| CollectRender.ExpectedNames | client/ayon_fusion/plugins/publish/collect_render.py:167-198 | the file names of the expected paths are the per-frame names in order |
| CollectRender.UpdateForFrames | client/ayon_fusion/plugins/publish/collect_render.py:178-214 | fails, changing nothing, exactly without expected files; otherwise the frames representation is appended to the representations, created when absent |
| CollectRender.FirstFailure | client/ayon_fusion/plugins/publish/collect_render.py:132-136 | the position of the first `render.frames` instance without expected files, or the context's length |
| CollectRender.FirstFailureFrom | client/ayon_fusion/plugins/publish/collect_render.py:132-136 | the same, searching from a position |
| CollectRender.PostCollectingAction | client/ayon_fusion/plugins/publish/collect_render.py:132-136 | succeeds exactly when no `render.frames` instance lacks expected files; every `render.frames` instance before the first failure gets its frames representation and every other instance is unchanged |
| CollectRender.HandleNext | client/ayon_fusion/plugins/publish/collect_render.py:133-136 | one turn of that loop keeps the description true one instance further, or stops at the first failure |
| ValidateSaverResolution.Lookup | client/ayon_fusion/plugins/publish/validate_saver_resolution.py:75-76 | a key is found exactly when the entity is a table holding it, with the stored value; otherwise the `KeyError` for that key |
| ValidateSaverResolution.ExpectedPrefersTask | client/ayon_fusion/plugins/publish/validate_saver_resolution.py:66-76 | a task entity carrying both resolution attributes decides the expected resolution |
| ValidateSaverResolution.ExpectedFallsBackToFolder | client/ayon_fusion/plugins/publish/validate_saver_resolution.py:68-76 | without a truthy task entity the folder entity's attributes decide it |
| ValidateSaverResolution.ExpectedComesFromEntity | client/ayon_fusion/plugins/publish/validate_saver_resolution.py:66-76 | an expected resolution is always the chosen entity's two attributes; the only failures are missing keys |
| ValidateSaverResolution.Resolution | client/ayon_fusion/plugins/publish/validate_saver_resolution.py:51-63 | the probed resolution when the probe succeeds; a `ValueError` becomes the "cannot get resolution" error for that frame; a type error passes through |
| ValidateSaverResolution.ProcessRaisesIffMismatch | client/ayon_fusion/plugins/publish/validate_saver_resolution.py:27-37 | with both resolutions known, the validation fails exactly when they differ, with both in the error |
| ValidateSaverResolution.SameResolutionOnInts | client/ayon_fusion/plugins/publish/validate_saver_resolution.py:29 | against integer attributes the comparison is plain pair equality |
| ValidateSaverResolution.Process | client/ayon_fusion/plugins/publish/validate_saver_resolution.py:23-37 | an inactive instance passes without touching the comp; otherwise the outcome of comparing the probed and expected resolutions, with the probe's lock and undo calls recorded |
| ValidateSaverResolution.InvalidAgreesWithProcess | client/ayon_fusion/plugins/publish/validate_saver_resolution.py:39-48 | the saver is reported invalid exactly when processing fails on an unreadable or mismatched resolution, nothing is reported exactly when processing passes, and a probe type error escapes both |
| ValidateSaverResolution.GetInvalid | client/ayon_fusion/plugins/publish/validate_saver_resolution.py:39-48 | the saver when its resolution is unreadable or differs from the expected one, nothing when they match, with the probe's calls recorded |
| ExtractRenderLocal.EntryWrites | client/ayon_fusion/plugins/publish/extract_render_local.py:43-46 | a pass-through write happens exactly when the wanted state differs from the saver's own, and writes the wanted state |
| ExtractRenderLocal.PassThroughUnlessEnabled | client/ayon_fusion/plugins/publish/extract_render_local.py:39-46 | records the saver's original state; afterwards it passes through exactly when it is not enabled, written only when that changed it |
| ExtractRenderLocal.DistinctSaversAreDistinctTools | client/ayon_fusion/plugins/publish/extract_render_local.py:36 | savers with distinct names are distinct tools |
| ExtractRenderLocal.PassThroughAllBut | client/ayon_fusion/plugins/publish/extract_render_local.py:39-46 | every saver's name and original state is recorded, in order, and each is entered as above |
| ExtractRenderLocal.EnterEnabledSavers | client/ayon_fusion/plugins/publish/extract_render_local.py:31-46 | the entry of `enabled_savers`: originals recorded for every saver, each saver enabled exactly when named among the savers to render, and the name table maps each name to its saver |
| ExtractRenderLocal.ExitEnabledSavers | client/ayon_fusion/plugins/publish/extract_render_local.py:48-51 | on exit every saver gets its original state back, with one write each |
| ExtractRenderLocal.RenderWithSavers | client/ayon_fusion/plugins/publish/extract_render_local.py:131-140 | exactly the savers named are live during the one render call, and afterwards each saver has its original state |
| ExtractRenderLocal.Selected | client/ayon_fusion/plugins/publish/extract_render_local.py:205-211 | the instances kept are exactly the context's published `render.local` ones |
| ExtractRenderLocal.Group | client/ayon_fusion/plugins/publish/extract_render_local.py:215-217 | a group holds exactly the instances of its frame range |
| ExtractRenderLocal.InstancesByFrameRange | client/ayon_fusion/plugins/publish/extract_render_local.py:194-219 | one key per frame range of a selected instance, holding that range's selected instances in context order |
| ExtractRenderLocal.GroupMapGroups | client/ayon_fusion/plugins/publish/extract_render_local.py:214-217 | the dictionary built by appending each instance under its range holds exactly the groups |
| ExtractRenderLocal.GroupByRange | client/ayon_fusion/plugins/publish/extract_render_local.py:214-219 | the loop builds exactly the groups |
| ExtractRenderLocal.GroupingStep | client/ayon_fusion/plugins/publish/extract_render_local.py:215-217 | appending one more instance under its range groups one more instance |
| ExtractRenderLocal.GroupStep | client/ayon_fusion/plugins/publish/extract_render_local.py:215-217 | one more instance adds its range and joins the end of its group |
| ExtractRenderLocal.InBatchOfOwnRange | client/ayon_fusion/plugins/publish/extract_render_local.py:104-110 | a selected instance is in the batch of its own range, so the lookup of `render` finds a key |
| ExtractRenderLocal.KeyedIffBatch | client/ayon_fusion/plugins/publish/extract_render_local.py:214-219 | a range is a key exactly when its batch is not empty |
| ExtractRenderLocal.SelectedAppend | client/ayon_fusion/plugins/publish/extract_render_local.py:205-211 | selection distributes over concatenation |
| ExtractRenderLocal.GroupAppend | client/ayon_fusion/plugins/publish/extract_render_local.py:215-217 | grouping distributes over concatenation |
| ExtractRenderLocal.BatchKeepsOrder | client/ayon_fusion/plugins/publish/extract_render_local.py:205-217 | a batch keeps the context order |
| ExtractRenderLocal.Flags | client/ayon_fusion/plugins/publish/extract_render_local.py:137-138 | the `RenderFlags` are present exactly when dialogs are suppressed, and are then `REQF_Quiet` = 524288 |
| ExtractRenderLocal.ToolsOf | client/ayon_fusion/plugins/publish/extract_render_local.py:119 | the saver of each batch instance, in order |
| ExtractRenderLocal.ToolsOfNames | client/ayon_fusion/plugins/publish/extract_render_local.py:119 | the enabled names are the names of the batch's savers |
| ExtractRenderLocal.MarkBatch | client/ayon_fusion/plugins/publish/extract_render_local.py:116-144 | every batch instance gets the mark and every other instance keeps its own |
| ExtractRenderLocal.RenderScope | client/ayon_fusion/plugins/publish/extract_render_local.py:129-140 | inside the lock and undo chunk and the maintained range: one render of the frames with the flags, the comp range restored, exactly the named savers live, and every saver restored |
| ExtractRenderLocal.RenderFresh | client/ayon_fusion/plugins/publish/extract_render_local.py:104-146 | the batch of the instance's range is marked, rendered once with exactly its savers live, and marked with the result's truthiness; a render that raises leaves the marks `False` |
| ExtractRenderLocal.RenderBatch | client/ayon_fusion/plugins/publish/extract_render_local.py:89-146 | an instance already marked returns its mark and changes nothing; otherwise its batch is rendered as above |
| ExtractRenderLocal.LocalRepresentation | client/ayon_fusion/plugins/publish/extract_render_local.py:151-185 | one file name for a single file, the list of names otherwise; the staging directory is the first file's; tags exactly when review or a thumbnail is wanted, `review` first |
| ExtractRenderLocal.AddLocalRepresentation | client/ayon_fusion/plugins/publish/extract_render_local.py:148-192 | fails, changing nothing, exactly without expected files; otherwise the representation is appended, the list created when absent |
| ExtractRenderLocal.LocalMatchesFrames | client/ayon_fusion/plugins/publish/extract_render_local.py:148-185 | for the expected files the local representation agrees with the collector's existing-frames one in name, extension, start, staging directory and files (a single file as a bare name) |
| ExtractRenderLocal.FirstExpectedParts | client/ayon_fusion/plugins/publish/extract_render_local.py:155-156 | splitting the first file's whole path finds the same padding and extension as splitting its name |
| ExtractRenderLocal.FramePathParts | client/ayon_fusion/plugins/publish/extract_render_local.py:155-156 | an expected path splits into the padding and extension it was built from |
| ExtractRenderLocal.WholePathParts | client/ayon_fusion/plugins/publish/extract_render_local.py:156 | a directory before the name does not change the padding and extension found |
| ExtractRenderLocal.Process | client/ayon_fusion/plugins/publish/extract_render_local.py:71-87 | the render (or the batch's mark), then `RuntimeError` exactly on a `False` result, then the representation appended exactly on success |
| ExtractRenderLocal.RuntimeErrorIffFalse | client/ayon_fusion/plugins/publish/extract_render_local.py:75-102 | the render fails exactly when the stored mark is false or a fresh render returns `False` |
| ExtractRenderLocal.BatchMatesAgree | client/ayon_fusion/plugins/publish/extract_render_local.py:75-144 | a boolean render result gives every instance of the batch the same outcome; a falsy non-boolean result passes the instance that rendered but fails its batch mates |

## Left out

- The poller's thread machinery (`QThread`, `msleep`, signals, `start` and `stop`): this is concurrency. `FusionPipeline.Run` drains an explicit queue and reads an interruption flag, and the delay is its `CallbackInterval`.
- Dialogs (the `SimplePopup` of `validate_comp_prefs` and `on_after_open`, the dialog of `prompt_reset_context`): user interface. A prompt is an output that carries the repair it would apply.
- The Fusion scripting surface (`Render`, `AddTool`, `Delete`, `MapPath`, `ReverseMapPath`, `GetPrefs`, `GetVersion`): the host's own behaviour is not visible, so its answers and side effects are parameters or recorded calls.
- Floating-point arithmetic: `pixelAspect = aspect_x / aspect_y` and `float(fps)`. Preferences are reals, frames are integers, and rounding is not modelled.
- Template and anatomy formatting, `get_workdir`, `get_template_data` and the colorspace settings in `_configure_saver_tool` and the representation builders: these are calls into ayon_core. The saver's output path is a parameter.
- `pre_pyside_install.py`, `load_settings.py`, `increment_current_file.py`, `launch_menu.py`, `__init__.py`, `FusionLogHandler` and the settings schema of `server/settings.py` are not part of this model. They are process launching, thin host wrappers, bootstrap code, logging and declarative settings. Only the one settings default that the saver creator relies on is used.
- File-system work: `copy_fusion_profile` and `get_profile_source` are not modelled. `os.path.isdir`, `os.path.normpath` and `Path(...).expanduser()` are parameters.
- The process environment read by `os.getenv` is a map parameter, separate from the launch environment.
- The launch-menu hook's settings lookup is a boolean parameter, `enabled`.
- Logging, `print` and the log messages of every plugin.
- `GenericCreateSaver.create`, `collect_instances` and `update_instances` are not part of this model. Their building blocks are: `_imprint`, `get_managed_tool_data`, `_update_tool_with_data`, the rename step and the attribute definitions.
- `maintained_selection`, `get_current_comp`, `get_bmd_library` and `get_workfile_extensions` are not part of this model. They are host lookups.
- Digits are the ASCII digits `0`-`9`, and white space is the ASCII white space plus the separators `\x1c`-`\x1f`. Python's `str.isdigit`, `\d` and `int()` also accept other Unicode digits, and `int()` also strips Unicode spaces such as `\x85` and `\xa0`.
- `FusionLib.GetFramePathWholeRun` asks for a path without a newline. Python's `.` in `re.match` does not match a newline, and that case is only covered by `FusionLib.GetFramePathParts`.
- `FusionLib.UpdateContentOnContextChange` asks that the instances be distinct objects. The source loops over a list that could hold one instance twice, and writing it twice gives the same result.
- `CollectRender.PostCollectingAction` asks that the instances be distinct objects, for the same reason.
- `CollectRender.RenderFamiliesNoDuplicates` asks that the families have no repeated entry to begin with. The source only avoids adding one.
- `CollectRender.FileNameParts` asks for a path without a newline, for the same reason as `get_frame_path`; `CollectRender.ExpectedFileReadsBack` asks the same of the head.
- `ExtractRenderLocal.EnterEnabledSavers` asks that the savers have distinct names. Fusion renames a tool whose name clashes, so names in one comp are unique.
- `ExtractRenderLocal.Process` asks the same of the comp's savers, as do the render members it calls.
- `ExtractRenderLocal.LocalMatchesFrames` has no newline in the output directory or the head, for the same reason as `get_frame_path`.
- The `Wait` argument of `comp.Render` is not modelled: the render is one call whose result is a parameter.
- `FusionPlugin.Imprint`: the source pops `instance_id` and `active` from the caller's dictionary in place. The model leaves the caller's data as it was and writes the same entries.
- `CollectRender.GetInstances`: a missing key in an instance's data makes the source raise `KeyError`. The model reads the keys from a typed record and does not model that error.
- `CollectRender.GetExpectedFiles` returns the output directory with the files, where the source stores it on the instance. It asks for a `Clip` input holding a string, which the source reads without a check.
- `CreateSaver.SaverAttrDefs` builds its frame-range source from the corrected `FrameRangeEnum`, whose default maps the settings value `current_context` to the key `current_task`. `_get_frame_range_enum` in the source passes `current_context` on unchanged, which is none of the enum's keys (see Findings).
- Paths follow POSIX `os.path` and `pathlib`: `Paths.Splitext`, `Paths.Basename`, `Paths.Dirname` and `Paths.Join2` split and join at `/` only. Windows backslash separators, drive anchors and case-insensitive comparison (`ntpath`, `WindowsPath`) are not modelled.
- `FusionPipeline.SaveWatch.BeforeWorkfileSave` tests `Path(workdir) in Path(filepath).parents` as a POSIX path test on `/`-separated parts. On Windows, `C:\work\sh\a.comp` lies under `C:\work` and `c:\WORK`, and the model does not capture that.
- `ValidateSaverResolution.Process`: `is_active` is a boolean parameter. Plugin activity itself is decided by pyblish.

## Findings

| source | as written | input that shows it | evidently intended | confidence | as-written member | corrected member |
|---|---|---|---|---|---|---|
| client/ayon_fusion/plugins/create/create_saver.py:25, 94-107 | the frame range enum offers the keys `current_task`, `render_range`, `comp_range` and `custom_range`, but its default is `default_frame_range_option`, which is `current_context` in the class and in the settings (server/settings.py:39-45) | the default settings: the enum's default `current_context` is none of its keys | the settings value `current_context` selects the option titled "Current context", whose key is `current_task` | not executed | `CreateSaver.FrameRangeEnumAsWritten`, `CreateSaver.ClassDefaultNotOffered` | `CreateSaver.FrameRangeEnum`, `CreateSaver.SettingsDefaultOffered`, `CreateSaver.SaverAttrDefs` |
