/** Helpers of the Fusion host library: the saver-path split used to find a
    sequence's padding, the frame-range and preference writes on the comp, the
    scopes that lock the comp, keep its range or borrow an input's expression,
    the input-resolution probe, and the retargeting of publish instances after
    a context change. */
module FusionLib {
  import opened Wrappers
  import opened HostData
  import opened Host
  import opened Creation
  import Strings
  import Paths

  // ---------------------------------------------------------------------
  // get_frame_path

  /** The length of the run of ASCII digits that ends `s`. */
  function TrailingDigits(s: string): (k: nat)
    ensures k <= |s|
    ensures forall i :: |s| - k <= i < |s| ==> Strings.IsDigit(s[i])
    ensures k < |s| ==> !Strings.IsDigit(s[|s| - k - 1])
    decreases |s|
  {
    if s == [] || !Strings.IsDigit(s[|s| - 1]) then 0
    else TrailingDigits(s[..|s| - 1]) + 1
  }

  /** The length of group 1 when `re.match('.*?([0-9]+)$', stem)` succeeds:
      `$` also matches just before a final newline, and `.` does not cross a
      newline, so the digit run before the anchor counts only when no newline
      precedes it. */
  function FrameDigitGroup(stem: string): (g: Option<nat>)
    ensures g.Some? ==> 1 <= g.value <= |stem|
  {
    var anchor := if |stem| > 0 && stem[|stem| - 1] == '\n' then |stem| - 1 else |stem|;
    var g := TrailingDigits(stem[..anchor]);
    if g > 0 && '\n' !in stem[..anchor - g] then Some(g) else None
  }

  /** `get_frame_path(path)`: (head, padding, extension). The trailing digit
      run of the stem is the padding and is cut from the head; without one the
      padding is Fusion's default of 4 and the head is the whole stem. */
  function GetFramePath(path: string): (r: (string, nat, string))
  {
    var (stem, ext) := Paths.Splitext(path);
    match FrameDigitGroup(stem)
    case Some(g) => (stem[..|stem| - g], g, ext)
    case None => (stem, 4, ext)
  }

  /** The function is total and always splits the path into head, digit run
      and extension: the extension is what `splitext` gives, the padding is the
      length of the cut digits, and nothing is lost. Without a matching digit
      run the padding is 4 and the head is the whole stem. */
  lemma GetFramePathParts(path: string)
    ensures var (head, padding, ext) := GetFramePath(path);
      ext == Paths.Splitext(path).1 &&
      (FrameDigitGroup(Paths.Splitext(path).0).Some? ==>
        |head| + padding + |ext| == |path| &&
        head + path[|head|..|head| + padding] + ext == path) &&
      (FrameDigitGroup(Paths.Splitext(path).0).None? ==>
        padding == 4 && head + ext == path)
  {
    var (stem, ext) := Paths.Splitext(path);
    assert stem + ext == path;
    match FrameDigitGroup(stem)
    case Some(g) =>
      var head := stem[..|stem| - g];
      assert path[..|stem|] == stem;
      assert stem == head + stem[|stem| - g..];
      assert path[|head|..|head| + g] == stem[|stem| - g..];
    case None =>
  }

  /** For a newline-free stem ending in digits, the whole trailing digit run
      is the padding: the head does not end in a digit. */
  lemma GetFramePathWholeRun(path: string)
    requires '\n' !in path
    ensures var parts := GetFramePath(path);
      var stem := Paths.Splitext(path).0;
      parts.1 == (if TrailingDigits(stem) > 0 then TrailingDigits(stem) else 4) &&
      (TrailingDigits(stem) > 0 ==>
        (parts.0 == stem[..|stem| - parts.1] && (parts.0 == [] || !Strings.IsDigit(parts.0[|parts.0| - 1]))))
  {
    var stem := Paths.Splitext(path).0;
    assert '\n' !in stem by {
      forall i | 0 <= i < |stem| ensures stem[i] != '\n' {
        assert stem[i] == path[i];
      }
    }
    DigitGroupWithoutNewline(stem);
  }

  /** In a newline-free stem the frame digit group is the whole trailing
      digit run, when there is one. */
  lemma DigitGroupWithoutNewline(stem: string)
    requires '\n' !in stem
    ensures var g := TrailingDigits(stem);
      FrameDigitGroup(stem) == if g > 0 then Some(g) else None
  {
    assert stem[..|stem|] == stem;
  }

  /** Re-inserting a digit run of the found width between head and extension
      gives back the same split: an expected file name parses to the head,
      padding and extension it was made from. */
  lemma GetFramePathRoundTrip(head: string, digits: string, ext: string)
    requires '\n' !in head && (head == [] || !Strings.IsDigit(head[|head| - 1]))
    requires |digits| >= 1 && Strings.AllDigits(digits)
    requires |ext| > 0 && ext[0] == '.' && '/' !in ext && '.' !in ext[1..]
    ensures GetFramePath(head + digits + ext) == (head, |digits|, ext)
  {
    var stem := head + digits;
    assert stem[|stem| - 1] == digits[|digits| - 1];
    Paths.SplitextExtension(stem, ext);
    assert stem[..|stem|] == stem;
    TrailingDigitsOf(head, digits);
    assert stem[..|stem| - |digits|] == head;
  }

  lemma {:induction false} TrailingDigitsOf(head: string, digits: string)
    requires head == [] || !Strings.IsDigit(head[|head| - 1])
    requires Strings.AllDigits(digits)
    ensures TrailingDigits(head + digits) == |digits|
    decreases |digits|
  {
    var s := head + digits;
    if digits == [] {
      assert s == head;
    } else {
      assert s[..|s| - 1] == head + digits[..|digits| - 1];
      TrailingDigitsOf(head, digits[..|digits| - 1]);
    }
  }

  /** The documented examples: a stem without digits keeps the default
      padding of 4; a trailing digit run sets the padding and leaves the head. */
  lemma GetFramePathDefaultExample()
    ensures GetFramePath("C:/test.exr") == ("C:/test", 4, ".exr")
  {
    var stem := "C:/test";
    Paths.SplitextExtension(stem, ".exr");
    assert stem + ".exr" == "C:/test.exr";
    assert stem[..|stem|] == stem;
    assert !Strings.IsDigit(stem[|stem| - 1]);
  }

  lemma GetFramePathDottedDigitsExample()
    ensures GetFramePath("filename.00.tif") == ("filename.", 2, ".tif")
  {
    assert Strings.AllDigits("00");
    GetFramePathRoundTrip("filename.", "00", ".tif");
    assert "filename." + "00" + ".tif" == "filename.00.tif";
  }

  lemma GetFramePathDigitsExample()
    ensures GetFramePath("foobar35.tif") == ("foobar", 2, ".tif")
  {
    assert Strings.AllDigits("35");
    GetFramePathRoundTrip("foobar", "35", ".tif");
    assert "foobar" + "35" + ".tif" == "foobar35.tif";
  }

  // ---------------------------------------------------------------------
  // comp_lock_and_undo_chunk

  /** The host calls of a `comp_lock_and_undo_chunk(comp, queue, keep)`
      scope around the calls `inner` made inside it. */
  function Chunk(queue: string, inner: seq<HostCall>, keep: bool): seq<HostCall> {
    [HostCall.Lock, HostCall.StartUndo(queue)] + inner + [HostCall.Unlock, HostCall.EndUndo(keep)]
  }

  /** The log of a scope, entered and left around `inner`, is the chunk. */
  lemma ChunkLog(before: seq<HostCall>, queue: string, inner: seq<HostCall>, keep: bool)
    ensures before + [HostCall.Lock, HostCall.StartUndo(queue)] + inner + [HostCall.Unlock, HostCall.EndUndo(keep)]
      == before + Chunk(queue, inner, keep)
  {
  }

  /** Entering `comp_lock_and_undo_chunk(comp, queue, keep)`. */
  method EnterLockAndUndo(comp: Comp, queue: string)
    modifies comp`calls
    ensures comp.calls == old(comp.calls) + [HostCall.Lock, HostCall.StartUndo(queue)]
  {
    comp.Lock();
    comp.StartUndo(queue);
  }

  /** Leaving the scope, normally or by an exception: always unlock and close
      the undo chunk. */
  method ExitLockAndUndo(comp: Comp, keep: bool)
    modifies comp`calls
    ensures comp.calls == old(comp.calls) + [HostCall.Unlock, HostCall.EndUndo(keep)]
  {
    comp.Unlock();
    comp.EndUndo(keep);
  }

  // ---------------------------------------------------------------------
  // update_frame_range

  /** The `SetAttrs` payload of `update_frame_range`; a missing handle counts as 0. */
  function FrameRangeAttrs(start: int, end: int, setRenderRange: bool,
                           handleStart: Option<int>, handleEnd: Option<int>): (a: RangeAttrs)
    ensures a.globalStart == Some(start - handleStart.GetOr(0))
    ensures a.globalEnd == Some(end + handleEnd.GetOr(0))
    ensures a.renderStart.Some? <==> setRenderRange
    ensures a.renderEnd.Some? <==> setRenderRange
    ensures setRenderRange ==> a.renderStart == Some(start) && a.renderEnd == Some(end)
  {
    RangeAttrs(
      Some(start - handleStart.GetOr(0)),
      Some(end + handleEnd.GetOr(0)),
      if setRenderRange then Some(start) else None,
      if setRenderRange then Some(end) else None)
  }

  /** With non-negative handles the render range written lies inside the
      global range written. */
  lemma RenderRangeWithinGlobal(r: FrameRange, start: int, end: int,
                                handleStart: Option<int>, handleEnd: Option<int>)
    requires handleStart.GetOr(0) >= 0 && handleEnd.GetOr(0) >= 0
    ensures var after := ApplyRange(r, FrameRangeAttrs(start, end, true, handleStart, handleEnd));
      after.globalStart <= after.renderStart && after.renderEnd <= after.globalEnd &&
      after.globalEnd - after.globalStart == (end - start) + handleStart.GetOr(0) + handleEnd.GetOr(0)
  {
  }

  /** Without `set_render_range` the comp's render range is left as it was. */
  lemma RenderRangeKept(r: FrameRange, start: int, end: int,
                        handleStart: Option<int>, handleEnd: Option<int>)
    ensures var after := ApplyRange(r, FrameRangeAttrs(start, end, false, handleStart, handleEnd));
      after.renderStart == r.renderStart && after.renderEnd == r.renderEnd
  {
  }

  /** `update_frame_range(start, end, comp, set_render_range, handle_start,
      handle_end)`: one `SetAttrs` inside a lock and undo chunk. */
  method UpdateFrameRange(comp: Comp, start: int, end: int, setRenderRange: bool,
                          handleStart: Option<int>, handleEnd: Option<int>)
    modifies comp`range, comp`calls
    ensures comp.range == ApplyRange(old(comp.range), FrameRangeAttrs(start, end, setRenderRange, handleStart, handleEnd))
    ensures comp.calls == old(comp.calls) +
      Chunk("Script CMD", [SetAttrsCall(FrameRangeAttrs(start, end, setRenderRange, handleStart, handleEnd))], true)
  {
    var attrs := FrameRangeAttrs(start, end, setRenderRange, handleStart, handleEnd);
    ghost var calls0 := comp.calls;
    EnterLockAndUndo(comp, "Script CMD");
    comp.SetAttrs(attrs);
    ExitLockAndUndo(comp, true);
    ChunkLog(calls0, "Script CMD", [SetAttrsCall(attrs)], true);
  }

  /** The worked example: frames 1001-1050 with five handles on each side. */
  lemma UpdateFrameRangeExample(r: FrameRange)
    ensures ApplyRange(r, FrameRangeAttrs(1001, 1050, true, Some(5), Some(5)))
      == FrameRange(996, 1055, 1001, 1050)
  {
  }

  // ---------------------------------------------------------------------
  // maintained_comp_range

  /** What `maintained_comp_range` records on entry: the selected attributes. */
  function PreservedRange(r: FrameRange, globalStart: bool, globalEnd: bool,
                          renderStart: bool, renderEnd: bool): (a: RangeAttrs)
    ensures a.globalStart.Some? <==> globalStart
    ensures a.globalEnd.Some? <==> globalEnd
    ensures a.renderStart.Some? <==> renderStart
    ensures a.renderEnd.Some? <==> renderEnd
  {
    RangeAttrs(
      if globalStart then Some(r.globalStart) else None,
      if globalEnd then Some(r.globalEnd) else None,
      if renderStart then Some(r.renderStart) else None,
      if renderEnd then Some(r.renderEnd) else None)
  }

  /** Whatever the body did to the range, writing the recorded attributes back
      restores exactly the selected ones and leaves the others as the body
      left them. */
  lemma MaintainedRangeRestores(before: FrameRange, during: FrameRange,
                                gs: bool, ge: bool, rs: bool, re: bool)
    ensures var after := ApplyRange(during, PreservedRange(before, gs, ge, rs, re));
      after.globalStart == (if gs then before.globalStart else during.globalStart) &&
      after.globalEnd == (if ge then before.globalEnd else during.globalEnd) &&
      after.renderStart == (if rs then before.renderStart else during.renderStart) &&
      after.renderEnd == (if re then before.renderEnd else during.renderEnd)
  {
  }

  /** Leaving `maintained_comp_range`, normally or by an exception. */
  method ExitMaintainedRange(comp: Comp, saved: RangeAttrs)
    modifies comp`range, comp`calls
    ensures comp.range == ApplyRange(old(comp.range), saved)
    ensures comp.calls == old(comp.calls) + [SetAttrsCall(saved)]
  {
    comp.SetAttrs(saved);
  }

  // ---------------------------------------------------------------------
  // validate_comp_prefs

  /** Task attributes that the validation reads. */
  datatype TaskAttrs = TaskAttrs(fps: real, resolutionWidth: real, resolutionHeight: real, pixelAspect: real)

  /** Task attributes a check reads (`fps`, `resolutionWidth`,
      `resolutionHeight`, `pixelAspectX`, `pixelAspectY`). */
  datatype TaskKey = Fps | ResolutionWidth | ResolutionHeight | PixelAspectX | PixelAspectY

  /** One row of the validation table: task key, `Comp.FrameFormat` key, label. */
  datatype Check = Check(taskKey: TaskKey, compKey: string, title: string)

  /** The five checks, in order; frame ranges are not among them. */
  const Validations: seq<Check> := [
    Check(Fps, "Rate", "FPS"),
    Check(ResolutionWidth, "Width", "Resolution Width"),
    Check(ResolutionHeight, "Height", "Resolution Height"),
    Check(PixelAspectX, "AspectX", "Pixel Aspect Ratio X"),
    Check(PixelAspectY, "AspectY", "Pixel Aspect Ratio Y")
  ]

  /** The value a check expects from task attributes: the pixel aspect becomes AspectX and
      AspectY is pinned to 1.0. */
  function TaskValue(task: TaskAttrs, key: TaskKey): real {
    match key
    case Fps => task.fps
    case ResolutionWidth => task.resolutionWidth
    case ResolutionHeight => task.resolutionHeight
    case PixelAspectX => task.pixelAspect
    case PixelAspectY => 1.0
  }

  /** One diagnostic: "<label> <comp value> should be <task value>"; the comp
      value is `None` when the preference is missing. */
  datatype Diagnostic = Diagnostic(title: string, compValue: Option<real>, taskValue: real)

  function Lookup(prefs: map<string, real>, key: string): Option<real> {
    if key in prefs then Some(prefs[key]) else None
  }

  /** The diagnostics for `checks`, in order. */
  function MismatchesIn(task: TaskAttrs, prefs: map<string, real>, checks: seq<Check>): seq<Diagnostic>
    decreases |checks|
  {
    if checks == [] then []
    else
      var c := checks[|checks| - 1];
      var found := Lookup(prefs, c.compKey);
      var expected := TaskValue(task, c.taskKey);
      MismatchesIn(task, prefs, checks[..|checks| - 1]) +
        (if found != Some(expected) then [Diagnostic(c.title, found, expected)] else [])
  }

  function Mismatches(task: TaskAttrs, prefs: map<string, real>): seq<Diagnostic> {
    MismatchesIn(task, prefs, Validations)
  }

  /** The batched repair: the five preferences set to their task values. */
  function RepairPrefs(task: TaskAttrs): map<string, real> {
    map["Rate" := task.fps, "Width" := task.resolutionWidth, "Height" := task.resolutionHeight,
        "AspectX" := task.pixelAspect, "AspectY" := 1.0]
  }

  /** The prefs agree with their task exactly when there is no diagnostic: there
      is a diagnostic for every disagreeing field and none otherwise. */
  lemma NoMismatchIff(task: TaskAttrs, prefs: map<string, real>)
    ensures Mismatches(task, prefs) == [] <==>
      forall k :: k in RepairPrefs(task) ==> k in prefs && prefs[k] == RepairPrefs(task)[k]
  {
    NoMismatchInIff(task, prefs, Validations);
    RepairMatchesValidations(task);
  }

  /** The repair writes exactly the comp keys of the five checks, each with
      the value its check expects. */
  lemma RepairMatchesValidations(task: TaskAttrs)
    ensures forall c :: c in Validations ==>
      c.compKey in RepairPrefs(task) && RepairPrefs(task)[c.compKey] == TaskValue(task, c.taskKey)
    ensures forall k :: k in RepairPrefs(task) ==> exists c :: c in Validations && c.compKey == k
  {
    var v := Validations;
    assert v[0] in v && v[1] in v && v[2] in v && v[3] in v && v[4] in v;
  }

  lemma {:induction false} NoMismatchInIff(task: TaskAttrs, prefs: map<string, real>, checks: seq<Check>)
    ensures MismatchesIn(task, prefs, checks) == [] <==>
      forall c :: c in checks ==> Lookup(prefs, c.compKey) == Some(TaskValue(task, c.taskKey))
    decreases |checks|
  {
    if checks != [] {
      var init := checks[..|checks| - 1];
      NoMismatchInIff(task, prefs, init);
      assert checks == init + [checks[|checks| - 1]];
    }
  }

  /** Each diagnostic names one of the five checks, so there are at most five. */
  lemma MismatchesBounded(task: TaskAttrs, prefs: map<string, real>)
    ensures |Mismatches(task, prefs)| <= 5
    ensures forall d :: d in Mismatches(task, prefs) ==>
      exists c :: c in Validations && d.title == c.title && d.compValue == Lookup(prefs, c.compKey)
  {
    MismatchesInBounded(task, prefs, Validations);
  }

  lemma {:induction false} MismatchesInBounded(task: TaskAttrs, prefs: map<string, real>, checks: seq<Check>)
    ensures |MismatchesIn(task, prefs, checks)| <= |checks|
    ensures forall d :: d in MismatchesIn(task, prefs, checks) ==>
      exists c :: c in checks && d.title == c.title && d.compValue == Lookup(prefs, c.compKey)
    decreases |checks|
  {
    if checks != [] {
      var init := checks[..|checks| - 1];
      MismatchesInBounded(task, prefs, init);
      forall d | d in MismatchesIn(task, prefs, checks)
        ensures exists c :: c in checks && d.title == c.title && d.compValue == Lookup(prefs, c.compKey)
      {
        if d in MismatchesIn(task, prefs, init) {
          var c :| c in init && d.title == c.title && d.compValue == Lookup(prefs, c.compKey);
          assert c in checks;
        } else {
          assert checks[|checks| - 1] in checks;
        }
      }
    }
  }

  /** After the repair the comp agrees with its task on all five fields. */
  lemma RepairClearsMismatches(task: TaskAttrs, prefs: map<string, real>)
    ensures Mismatches(task, prefs + RepairPrefs(task)) == []
  {
    NoMismatchIff(task, prefs + RepairPrefs(task));
  }

  /** What is left for the user when the repair is not forced: the
      diagnostics and the repair the dialog's button would apply. */
  datatype Prompt = Prompt(diagnostics: seq<Diagnostic>, repair: map<string, real>)

  /** `validate_comp_prefs(comp, force_repair)`. Collects the diagnostics in
      validation order (with a warning for each unless the repair is forced);
      on a mismatch either writes all five preferences in one `SetPrefs` or
      leaves the comp alone and hands back the prompt; without a mismatch
      does nothing. */
  method ValidateCompPrefs(comp: Comp, task: TaskAttrs, forceRepair: bool)
    returns (invalid: seq<Diagnostic>, warnings: seq<Diagnostic>, prompt: Option<Prompt>)
    modifies comp`frameFormat, comp`calls
    ensures invalid == Mismatches(task, old(comp.frameFormat))
    ensures warnings == if forceRepair then [] else invalid
    ensures invalid == [] ==> prompt == None && comp.frameFormat == old(comp.frameFormat) && comp.calls == old(comp.calls)
    ensures invalid != [] && forceRepair ==>
      prompt == None &&
      comp.frameFormat == old(comp.frameFormat) + RepairPrefs(task) &&
      comp.calls == old(comp.calls) + [SetPrefsCall(RepairPrefs(task))]
    ensures invalid != [] && !forceRepair ==>
      prompt == Some(Prompt(invalid, RepairPrefs(task))) &&
      comp.frameFormat == old(comp.frameFormat) && comp.calls == old(comp.calls)
  {
    var prefs := comp.frameFormat;
    invalid, warnings := [], [];
    for i := 0 to |Validations|
      invariant invalid == MismatchesIn(task, prefs, Validations[..i])
      invariant warnings == if forceRepair then [] else invalid
    {
      assert Validations[..i + 1][..i] == Validations[..i];
      var c := Validations[i];
      var taskValue := TaskValue(task, c.taskKey);
      var compValue := Lookup(prefs, c.compKey);
      if compValue != Some(taskValue) {
        invalid := invalid + [Diagnostic(c.title, compValue, taskValue)];
        if !forceRepair {
          warnings := warnings + [Diagnostic(c.title, compValue, taskValue)];
        }
      }
    }
    assert Validations[..|Validations|] == Validations;
    prompt := None;
    if invalid != [] {
      if forceRepair {
        comp.SetFrameFormat(RepairPrefs(task));
      } else {
        prompt := Some(Prompt(invalid, RepairPrefs(task)));
      }
    }
  }

  // ---------------------------------------------------------------------
  // temp_expression and get_tool_resolution

  /** What `temp_expression` keeps to restore on exit. */
  datatype SavedComment = SavedExpression(expr: string) | SavedValue(v: Value)

  /** `value in ["", None]`. */
  predicate IsBlank(v: Value) {
    v == Str("") || v == Null
  }

  function ReadInput(value: Value, expression: Option<string>, eval: string -> Value): Value {
    match expression
    case Some(e) => eval(e)
    case None => value
  }

  /** The state saved on entry: the expression when the input currently reads
      non-blank and has one, the value when it reads non-blank without one,
      and the empty string when it reads blank. */
  function SaveComment(value: Value, expression: Option<string>, eval: string -> Value): SavedComment {
    if !IsBlank(ReadInput(value, expression, eval)) then
      if expression.Some? then SavedExpression(expression.value) else SavedValue(value)
    else SavedValue(Str(""))
  }

  /** (value, expression) of the input once the scope is left. */
  function AfterTemp(value: Value, expression: Option<string>, eval: string -> Value): (Value, Option<string>) {
    match SaveComment(value, expression, eval)
    case SavedExpression(e) => (value, Some(e))
    case SavedValue(v) => (v, None)
  }

  /** An input that reads non-blank gets its expression or its value back
      exactly. One that reads blank is left holding the empty string with no
      expression. */
  lemma TempExpressionRestores(value: Value, expression: Option<string>, eval: string -> Value)
    ensures !IsBlank(ReadInput(value, expression, eval)) ==> AfterTemp(value, expression, eval) == (value, expression)
    ensures IsBlank(ReadInput(value, expression, eval)) ==> AfterTemp(value, expression, eval) == (Str(""), None)
  {
  }

  /** A second borrow after the first leaves the input as the first left it. */
  lemma AfterTempIdempotent(value: Value, expression: Option<string>, eval: string -> Value)
    ensures var (v, e) := AfterTemp(value, expression, eval); AfterTemp(v, e, eval) == (v, e)
  {
  }

  /** Entering `temp_expression(attribute, frame, expression)`. */
  method EnterTempExpression(attr: TextInput, eval: string -> Value, expression: string)
    returns (saved: SavedComment)
    modifies attr
    ensures saved == SaveComment(old(attr.value), old(attr.expression), eval)
    ensures attr.expression == Some(expression)
    ensures attr.value == if saved.SavedValue? && !IsBlank(ReadInput(old(attr.value), old(attr.expression), eval))
                          then Str("") else old(attr.value)
  {
    saved := SavedValue(Str(""));
    if !IsBlank(attr.Read(eval)) {
      if attr.expression.Some? {
        saved := SavedExpression(attr.expression.value);
        attr.SetExpression(None);
      } else {
        saved := SavedValue(attr.Read(eval));
        attr.SetValue(Str(""));
      }
    }
    attr.SetExpression(Some(expression));
  }

  /** Leaving the scope, normally or by an exception. */
  method ExitTempExpression(attr: TextInput, saved: SavedComment)
    modifies attr
    ensures saved.SavedExpression? ==> attr.expression == Some(saved.expr) && attr.value == old(attr.value)
    ensures saved.SavedValue? ==> attr.expression == None && attr.value == saved.v
  {
    attr.SetExpression(None);
    match saved
    case SavedExpression(e) => attr.SetExpression(Some(e));
    case SavedValue(v) => attr.SetValue(v);
  }

  /** A failure of the probe: `ValueError` (nothing read, or a value `int()`
      refuses) or `TypeError` (a table). */
  datatype ProbeError = ValueError(message: string) | TypeError

  /** `int(value)` after the `None` check, over the values an expression yields. */
  function ToInt(v: Value, missing: string): (r: Result<int, ProbeError>)
    ensures v == Null ==> r == Failure(ValueError(missing))
    ensures v.Int? ==> r == Success(v.i)
  {
    match v
    case Null => Failure(ValueError(missing))
    case Int(i) => Success(i)
    case Bool(b) => Success(if b then 1 else 0)
    case Str(s) =>
      var parsed := Strings.ParseInt(s);
      if parsed.Some? then Success(parsed.value) else Failure(ValueError("invalid literal for int()"))
    case Dict(_) => Failure(TypeError)
  }

  /** A text value is read as `int()` reads it: the printed form of any
      integer, with white space around it, gives that integer, and blank
      text is refused with `ValueError`. */
  lemma ToIntOfText(i: int, pre: string, post: string, missing: string)
    requires Strings.AllSpaces(pre) && Strings.AllSpaces(post)
    ensures ToInt(Str(pre + Strings.IntToString(i) + post), missing) == Success(i)
    ensures ToInt(Str(pre + post), missing).Failure? && ToInt(Str(pre + post), missing).error.ValueError?
  {
    Strings.ParseIntPadded(i, pre, post);
    assert Strings.AllSpaces(pre + post) by {
      forall k | 0 <= k < |pre + post| ensures Strings.IsSpace((pre + post)[k]) {
        if k < |pre| { assert (pre + post)[k] == pre[k]; } else { assert (pre + post)[k] == post[k - |pre|]; }
      }
    }
    Strings.ParseIntBlank(pre + post);
  }

  const WidthExpression := "self.Input.OriginalWidth"
  const HeightExpression := "self.Input.OriginalHeight"

  /** The resolution the probe reports: width first; the height is only read
      when the width was. */
  function ProbedResolution(eval: string -> Value): Result<(int, int), ProbeError> {
    match ToInt(eval(WidthExpression), "Failed to read input width")
    case Failure(e) => Failure(e)
    case Success(w) =>
      match ToInt(eval(HeightExpression), "Failed to read input height")
      case Failure(e) => Failure(e)
      case Success(h) => Success((w, h))
  }

  /** `get_tool_resolution(tool, frame)`: reads the width and then the height
      through a temporary expression on the `Comments` input, inside a lock and
      an undo chunk that is not kept. The scopes are left on every path, so
      the lock is released and the input restored even when the read fails.
      `eval` is the host's evaluation of an expression on this tool. */
  method GetToolResolution(tool: Tool, comp: Comp, eval: string -> Value)
    returns (r: Result<(int, int), ProbeError>)
    modifies comp`calls, tool.comments
    ensures r == ProbedResolution(eval)
    ensures comp.calls == old(comp.calls) + [
      HostCall.Lock, HostCall.StartUndo("Read resolution"), HostCall.Unlock, HostCall.EndUndo(false)]
    ensures (tool.comments.value, tool.comments.expression)
      == AfterTemp(old(tool.comments.value), old(tool.comments.expression), eval)
  {
    var attr := tool.comments;
    ghost var v0, e0 := attr.value, attr.expression;
    EnterLockAndUndo(comp, "Read resolution");

    var saved := EnterTempExpression(attr, eval, WidthExpression);
    var width := ToInt(attr.Read(eval), "Failed to read input width");
    ExitTempExpression(attr, saved);
    assert (attr.value, attr.expression) == AfterTemp(v0, e0, eval);
    if width.Failure? {
      ExitLockAndUndo(comp, false);
      return Failure(width.error);
    }

    ghost var v1, e1 := attr.value, attr.expression;
    saved := EnterTempExpression(attr, eval, HeightExpression);
    var height := ToInt(attr.Read(eval), "Failed to read input height");
    ExitTempExpression(attr, saved);
    AfterTempIdempotent(v0, e0, eval);
    assert (attr.value, attr.expression) == AfterTemp(v1, e1, eval);
    if height.Failure? {
      ExitLockAndUndo(comp, false);
      return Failure(height.error);
    }

    ExitLockAndUndo(comp, false);
    r := Success((width.value, height.value));
  }

  // ---------------------------------------------------------------------
  // update_content_on_context_change

  /** The data of one instance after retargeting: `folderPath` and `task` are
      overwritten with the current context only when they are set (truthy) and
      differ from it. */
  function Retarget(data: map<string, Value>, folderPath: string, task: string): map<string, Value> {
    var d := if "folderPath" in data && Truthy(data["folderPath"]) && data["folderPath"] != Str(folderPath)
             then data["folderPath" := Str(folderPath)] else data;
    if "task" in d && Truthy(d["task"]) && d["task"] != Str(task)
    then d["task" := Str(task)] else d
  }

  /** After retargeting, every set `folderPath`/`task` equals the current
      context, an unset one is left as it was, and no other key changes. */
  lemma RetargetAligns(data: map<string, Value>, folderPath: string, task: string)
    ensures var r := Retarget(data, folderPath, task);
      r.Keys == data.Keys &&
      (forall k :: k in data && k != "folderPath" && k != "task" ==> r[k] == data[k]) &&
      ("folderPath" in data ==>
        r["folderPath"] == (if Truthy(data["folderPath"]) then Str(folderPath) else data["folderPath"])) &&
      ("task" in data ==>
        r["task"] == (if Truthy(data["task"]) then Str(task) else data["task"]))
  {
  }

  /** Retargeting twice is retargeting once. */
  lemma RetargetIdempotent(data: map<string, Value>, folderPath: string, task: string)
    ensures Retarget(Retarget(data, folderPath, task), folderPath, task) == Retarget(data, folderPath, task)
  {
    RetargetAligns(data, folderPath, task);
    var r := Retarget(data, folderPath, task);
    RetargetAligns(r, folderPath, task);
  }

  /** `update_content_on_context_change()` over the create context's
      instances (distinct objects), with the host's current folder path and
      task. Saving the changes back is the framework's work. */
  method UpdateContentOnContextChange(instances: seq<CreatedInstance>, folderPath: string, task: string)
    requires forall i, j :: 0 <= i < j < |instances| ==> instances[i] != instances[j]
    modifies set inst | inst in instances
    ensures forall i :: 0 <= i < |instances| ==>
      instances[i].data == Retarget(old(instances[i].data), folderPath, task)
  {
    for n := 0 to |instances|
      invariant forall i :: 0 <= i < n ==> instances[i].data == Retarget(old(instances[i].data), folderPath, task)
      invariant forall i :: n <= i < |instances| ==> instances[i].data == old(instances[i].data)
    {
      var inst := instances[n];
      var folder := inst.Get("folderPath");
      if folder.Some? && Truthy(folder.value) && folder.value != Str(folderPath) {
        inst.Put("folderPath", Str(folderPath));
      }
      var taskValue := inst.Get("task");
      if taskValue.Some? && Truthy(taskValue.value) && taskValue.value != Str(task) {
        inst.Put("task", Str(task));
      }
    }
  }
}
