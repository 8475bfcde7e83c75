/** The image-sequence loader: the `preserve_inputs` and `preserve_trim`
    scopes, `loader_shift`, the start frame of a version, and loading,
    updating and removing a `Loader` tool. */
module LoadSequence {
  import opened Wrappers
  import opened HostData
  import opened Host
  import FusionLib
  import FusionPipeline

  // ---------------------------------------------------------------------
  // preserve_inputs

  /** `tool[name][TIME_UNDEFINED]`; an input that was never set reads as `None`. */
  function InputAt(inputs: map<InputId, Value>, name: InputId): Value {
    if name in inputs then inputs[name] else Null
  }

  /** The values `preserve_inputs` records on entry, in the given order. */
  function Snapshot(inputs: map<InputId, Value>, names: seq<InputId>): (r: seq<(InputId, Value)>)
    ensures |r| == |names|
    ensures forall i :: 0 <= i < |names| ==> r[i] == (names[i], InputAt(inputs, names[i]))
    decreases |names|
  {
    if names == [] then []
    else Snapshot(inputs, names[..|names| - 1]) + [(names[|names| - 1], InputAt(inputs, names[|names| - 1]))]
  }

  /** The input writes of a sequence of assignments. */
  function InputWrites(pairs: seq<(InputId, Value)>): (w: seq<ToolWrite>)
    ensures |w| == |pairs|
    ensures forall i :: 0 <= i < |w| ==> w[i] == InputWrite(pairs[i].0, pairs[i].1)
    decreases |pairs|
  {
    if pairs == [] then []
    else InputWrites(pairs[..|pairs| - 1]) + [InputWrite(pairs[|pairs| - 1].0, pairs[|pairs| - 1].1)]
  }

  lemma {:induction false} SnapshotMap(inputs: map<InputId, Value>, names: seq<InputId>)
    ensures EntryMap(Snapshot(inputs, names)) == map n | n in names :: InputAt(inputs, n)
    decreases |names|
  {
    if names != [] {
      var k := |names| - 1;
      var s := Snapshot(inputs, names);
      assert s[..k] == Snapshot(inputs, names[..k]);
      SnapshotMap(inputs, names[..k]);
      assert forall n :: n in names <==> n in names[..k] || n == names[k] by {
        assert names == names[..k] + [names[k]];
      }
    }
  }

  /** Leaving `preserve_inputs` puts back every recorded input, whatever
      happened inside the scope, and leaves every other input as it was. */
  lemma PreservedInputsRestored(before: map<InputId, Value>, during: map<InputId, Value>, names: seq<InputId>)
    ensures forall n :: n in names ==> InputAt(during + EntryMap(Snapshot(before, names)), n) == InputAt(before, n)
    ensures forall k :: k !in names ==> InputAt(during + EntryMap(Snapshot(before, names)), k) == InputAt(during, k)
  {
    SnapshotMap(before, names);
  }

  /** Entering `preserve_inputs(tool, names)`: read each named input. */
  method EnterPreserveInputs(tool: Tool, names: seq<InputId>) returns (saved: seq<(InputId, Value)>)
    ensures saved == Snapshot(tool.inputs, names)
  {
    saved := [];
    for i := 0 to |names|
      invariant saved == Snapshot(tool.inputs, names[..i])
    {
      assert names[..i + 1][..i] == names[..i];
      saved := saved + [(names[i], InputAt(tool.inputs, names[i]))];
    }
    assert names[..|names|] == names;
  }

  /** Leaving `preserve_inputs`: write every recorded value back, in order. */
  method ExitPreserveInputs(tool: Tool, saved: seq<(InputId, Value)>)
    modifies tool`inputs, tool`writes
    ensures tool.inputs == old(tool.inputs) + EntryMap(saved)
    ensures tool.writes == old(tool.writes) + InputWrites(saved)
  {
    ghost var inputs0, writes0 := tool.inputs, tool.writes;
    for i := 0 to |saved|
      invariant tool.inputs == inputs0 + EntryMap(saved[..i])
      invariant tool.writes == writes0 + InputWrites(saved[..i])
    {
      assert saved[..i + 1][..i] == saved[..i];
      tool.SetInput(saved[i].0, saved[i].1, map[]);
    }
    assert saved[..|saved|] == saved;
  }

  // ---------------------------------------------------------------------
  // preserve_trim

  /** A loader's trim as amounts cut from the clip's start and end. */
  datatype Trim = Trim(fromStart: int, fromEnd: int)

  /** The trim recorded on entry; `last` is the clip's last frame (its length minus one). */
  function SaveTrim(last: int, clipTimeStart: int, clipTimeEnd: int): Trim {
    Trim(clipTimeStart, last - clipTimeEnd)
  }

  /** The `ClipTimeStart` and `ClipTimeEnd` written back on exit for a clip
      whose last frame is now `last`: each amount is cut down to what the new
      clip still allows. */
  function RestoreTrim(t: Trim, last: int): (r: (int, int))
    ensures r.0 <= last && r.0 <= r.1
  {
    var fromStart := if t.fromStart > last then last else t.fromStart;
    var remainder := last - fromStart;
    var fromEnd := if t.fromEnd > remainder then remainder else t.fromEnd;
    (fromStart, last - fromEnd)
  }

  /** When the new clip is long enough, both trim amounts are kept exactly. */
  lemma RestoreTrimKeepsAmounts(t: Trim, last: int)
    requires t.fromStart <= last && t.fromEnd <= last - t.fromStart
    ensures RestoreTrim(t, last) == (t.fromStart, last - t.fromEnd)
  {
  }

  /** With an unchanged clip, a consistent trim comes back exactly. */
  lemma RestoreTrimSameClip(last: int, clipTimeStart: int, clipTimeEnd: int)
    requires clipTimeStart <= last && clipTimeStart <= clipTimeEnd
    ensures RestoreTrim(SaveTrim(last, clipTimeStart, clipTimeEnd), last) == (clipTimeStart, clipTimeEnd)
  {
  }

  /** A clip shorter than the trim-in is trimmed to its last frame at both ends. */
  lemma RestoreTrimTooShort(t: Trim, last: int)
    requires t.fromStart > last && t.fromEnd >= 0
    ensures RestoreTrim(t, last) == (last, last)
  {
  }

  /** An input the host holds as a number. */
  predicate NumericAt(inputs: map<InputId, Value>, name: InputId) {
    name in inputs && inputs[name].Int?
  }

  /** Entering `preserve_trim(loader)`. */
  method EnterPreserveTrim(tool: Tool) returns (t: Trim)
    requires NumericAt(tool.inputs, InputId.ClipTimeStart) && NumericAt(tool.inputs, InputId.ClipTimeEnd)
    ensures t == SaveTrim(tool.clipLength - 1, tool.inputs[InputId.ClipTimeStart].i, tool.inputs[InputId.ClipTimeEnd].i)
  {
    var last := tool.clipLength - 1;
    t := Trim(tool.inputs[InputId.ClipTimeStart].i, last - tool.inputs[InputId.ClipTimeEnd].i);
  }

  /** Leaving `preserve_trim`: write the restored trim for the current clip. */
  method ExitPreserveTrim(tool: Tool, t: Trim)
    modifies tool`inputs, tool`writes
    ensures var r := RestoreTrim(t, tool.clipLength - 1);
      tool.inputs == old(tool.inputs)[InputId.ClipTimeStart := Int(r.0)][InputId.ClipTimeEnd := Int(r.1)] &&
      tool.writes == old(tool.writes) + [InputWrite(InputId.ClipTimeStart, Int(r.0)), InputWrite(InputId.ClipTimeEnd, Int(r.1))]
  {
    var r := RestoreTrim(t, tool.clipLength - 1);
    tool.SetInput(InputId.ClipTimeStart, Int(r.0), map[]);
    tool.SetInput(InputId.ClipTimeEnd, Int(r.1), map[]);
  }

  // ---------------------------------------------------------------------
  // loader_shift

  /** The inputs `loader_shift` protects from the host's compensation. */
  const ShiftPreserved: seq<InputId> := [InputId.ClipTimeStart, InputId.ClipTimeEnd, InputId.HoldFirstFrame, InputId.HoldLastFrame]

  /** Membership in `ShiftPreserved`. */
  predicate ShiftProtected(k: InputId) {
    k.ClipTimeStart? || k.ClipTimeEnd? || k.HoldFirstFrame? || k.HoldLastFrame?
  }

  /** The frames to move: `frame` itself, or the distance from the current global in. */
  function ShiftOf(oldIn: int, frame: int, relative: bool): int {
    if relative then frame else frame - oldIn
  }

  /** The global in/out writes, in the order that keeps in before out. */
  function ShiftWrites(oldIn: int, oldOut: int, shift: int): seq<(InputId, int)> {
    if shift > 0 then [(InputId.GlobalOut, oldOut + shift), (InputId.GlobalIn, oldIn + shift)]
    else [(InputId.GlobalIn, oldIn + shift), (InputId.GlobalOut, oldOut + shift)]
  }

  /** The (global in, global out) pairs after each write. */
  function Replay(inOut: (int, int), writes: seq<(InputId, int)>): (r: seq<(int, int)>)
    ensures |r| == |writes|
    decreases |writes|
  {
    if writes == [] then []
    else
      var next := if writes[0].0 == InputId.GlobalIn then (writes[0].1, inOut.1) else (inOut.0, writes[0].1);
      [next] + Replay(next, writes[1..])
  }

  /** Writing out before in on a forward shift, and in before out on a
      backward one, never lets global in pass global out, and ends with the
      whole range moved by the shift. */
  lemma ShiftKeepsInBeforeOut(oldIn: int, oldOut: int, shift: int)
    requires oldIn <= oldOut
    ensures var steps := Replay((oldIn, oldOut), ShiftWrites(oldIn, oldOut, shift));
      (forall i :: 0 <= i < |steps| ==> steps[i].0 <= steps[i].1) &&
      steps[|steps| - 1] == (oldIn + shift, oldOut + shift)
  {
    var ws := ShiftWrites(oldIn, oldOut, shift);
    assert ws[1..][1..] == [];
  }

  /** The other order fails: moving global in first by more than the
      range's length puts it past global out. */
  lemma InFirstWouldCross(oldIn: int, oldOut: int, shift: int)
    requires oldIn <= oldOut && shift > oldOut - oldIn
    ensures Replay((oldIn, oldOut), [(InputId.GlobalIn, oldIn + shift), (InputId.GlobalOut, oldOut + shift)])[0].0
      > Replay((oldIn, oldOut), [(InputId.GlobalIn, oldIn + shift), (InputId.GlobalOut, oldOut + shift)])[0].1
  {
  }

  /** The inputs after a sequence of writes, each followed by the host's compensation. */
  function ApplyWrites(inputs: map<InputId, Value>, writes: seq<(InputId, int)>, effects: map<InputId, Value>): map<InputId, Value>
    decreases |writes|
  {
    if writes == [] then inputs
    else ApplyWrites(inputs[writes[0].0 := Int(writes[0].1)] + effects, writes[1..], effects)
  }

  lemma ApplyTwoWrites(inputs: map<InputId, Value>, writes: seq<(InputId, int)>, effects: map<InputId, Value>)
    requires |writes| == 2
    ensures ApplyWrites(inputs, writes, effects)
      == (inputs[writes[0].0 := Int(writes[0].1)] + effects)[writes[1].0 := Int(writes[1].1)] + effects
  {
    var first := inputs[writes[0].0 := Int(writes[0].1)] + effects;
    var second := first[writes[1].0 := Int(writes[1].1)] + effects;
    assert writes[1..][1..] == [];
    assert ApplyWrites(second, writes[1..][1..], effects) == second;
    assert ApplyWrites(first, writes[1..], effects) == second;
  }

  /** `loader_shift(loader, frame, relative)`. The host may compensate each
      global-in/out write by changing the preserved inputs (`effects`). */
  method LoaderShift(tool: Tool, frame: int, relative: bool, effects: map<InputId, Value>) returns (moved: int)
    requires NumericAt(tool.inputs, InputId.GlobalIn) && NumericAt(tool.inputs, InputId.GlobalOut)
    requires forall k :: k in effects ==> ShiftProtected(k)
    modifies tool`inputs, tool`writes
    ensures moved == ShiftOf(old(tool.inputs[InputId.GlobalIn].i), frame, relative)
    ensures moved == 0 ==> tool.inputs == old(tool.inputs) && tool.writes == old(tool.writes)
    ensures moved != 0 ==>
      var ws := ShiftWrites(old(tool.inputs[InputId.GlobalIn].i), old(tool.inputs[InputId.GlobalOut].i), moved);
      tool.writes == old(tool.writes) + [InputWrite(ws[0].0, Int(ws[0].1)), InputWrite(ws[1].0, Int(ws[1].1))]
        + InputWrites(Snapshot(old(tool.inputs), ShiftPreserved))
    ensures ShiftOutcome(old(tool.inputs), tool.inputs, moved)
  {
    var oldIn := tool.inputs[InputId.GlobalIn].i;
    var oldOut := tool.inputs[InputId.GlobalOut].i;
    moved := if relative then frame else frame - oldIn;
    if moved == 0 {
      assert ShiftOutcome(tool.inputs, tool.inputs, 0);
      return;
    }
    ghost var inputs0 := tool.inputs;
    var saved := EnterPreserveInputs(tool, ShiftPreserved);
    MoveRange(tool, oldIn, oldOut, moved, effects);
    ExitPreserveInputs(tool, saved);
    ShiftedInputs(inputs0, tool.inputs, moved, effects);
  }

  /** The two global writes of `loader_shift`, out first on a forward shift. */
  method MoveRange(tool: Tool, oldIn: int, oldOut: int, shift: int, effects: map<InputId, Value>)
    modifies tool`inputs, tool`writes
    ensures var ws := ShiftWrites(oldIn, oldOut, shift);
      tool.inputs == ApplyWrites(old(tool.inputs), ws, effects) &&
      tool.writes == old(tool.writes) + [InputWrite(ws[0].0, Int(ws[0].1)), InputWrite(ws[1].0, Int(ws[1].1))]
  {
    ApplyTwoWrites(tool.inputs, ShiftWrites(oldIn, oldOut, shift), effects);
    if shift > 0 {
      tool.SetInput(InputId.GlobalOut, Int(oldOut + shift), effects);
      tool.SetInput(InputId.GlobalIn, Int(oldIn + shift), effects);
    } else {
      tool.SetInput(InputId.GlobalIn, Int(oldIn + shift), effects);
      tool.SetInput(InputId.GlobalOut, Int(oldOut + shift), effects);
    }
  }

  /** The range moved by `shift`, the preserved inputs as they were, and
      every other input untouched. */
  ghost predicate ShiftOutcome(before: map<InputId, Value>, after: map<InputId, Value>, shift: int)
    requires NumericAt(before, InputId.GlobalIn) && NumericAt(before, InputId.GlobalOut)
  {
    InputAt(after, InputId.GlobalIn) == Int(before[InputId.GlobalIn].i + shift) &&
    InputAt(after, InputId.GlobalOut) == Int(before[InputId.GlobalOut].i + shift) &&
    (forall n :: ShiftProtected(n) ==> InputAt(after, n) == InputAt(before, n)) &&
    (forall k :: k != InputId.GlobalIn && k != InputId.GlobalOut && !ShiftProtected(k) ==> InputAt(after, k) == InputAt(before, k))
  }

  /** The two global writes set the range and, with the host's compensation
      limited to the preserved inputs, touch nothing else. */
  lemma MovedRange(inputs: map<InputId, Value>, shift: int, effects: map<InputId, Value>)
    requires NumericAt(inputs, InputId.GlobalIn) && NumericAt(inputs, InputId.GlobalOut)
    requires forall k :: k in effects ==> ShiftProtected(k)
    ensures var during := ApplyWrites(inputs, ShiftWrites(inputs[InputId.GlobalIn].i, inputs[InputId.GlobalOut].i, shift), effects);
      InputAt(during, InputId.GlobalIn) == Int(inputs[InputId.GlobalIn].i + shift) &&
      InputAt(during, InputId.GlobalOut) == Int(inputs[InputId.GlobalOut].i + shift) &&
      forall k :: k != InputId.GlobalIn && k != InputId.GlobalOut && !ShiftProtected(k) ==> InputAt(during, k) == InputAt(inputs, k)
  {
    var ws := ShiftWrites(inputs[InputId.GlobalIn].i, inputs[InputId.GlobalOut].i, shift);
    ApplyTwoWrites(inputs, ws, effects);
    assert InputId.GlobalIn !in effects && InputId.GlobalOut !in effects;
  }

  /** What `loader_shift` leaves in the inputs: the two writes, then the
      preserved inputs written back. */
  lemma ShiftedInputs(inputs: map<InputId, Value>, after: map<InputId, Value>, shift: int, effects: map<InputId, Value>)
    requires NumericAt(inputs, InputId.GlobalIn) && NumericAt(inputs, InputId.GlobalOut)
    requires forall k :: k in effects ==> ShiftProtected(k)
    requires after == ApplyWrites(inputs, ShiftWrites(inputs[InputId.GlobalIn].i, inputs[InputId.GlobalOut].i, shift), effects)
                      + EntryMap(Snapshot(inputs, ShiftPreserved))
    ensures ShiftOutcome(inputs, after, shift)
  {
    var during := ApplyWrites(inputs, ShiftWrites(inputs[InputId.GlobalIn].i, inputs[InputId.GlobalOut].i, shift), effects);
    MovedRange(inputs, shift, effects);
    PreservedInputsRestored(inputs, during, ShiftPreserved);
    assert forall k :: k in ShiftPreserved <==> ShiftProtected(k);
  }

  // ---------------------------------------------------------------------
  // FusionLoadSequence

  /** The version attributes `_get_start` reads; `None` when absent or null. */
  datatype VersionAttrib = VersionAttrib(frameStartHandle: Option<int>, frameStart: Option<int>, handleStart: Option<int>)

  /** `_get_start(version)`: the start with handles when published, else the
      start minus a non-zero `handleStart`, else 0. */
  function GetStart(a: VersionAttrib): (r: int)
    ensures a.frameStartHandle.Some? ==> r == a.frameStartHandle.value
    ensures a.frameStartHandle.None? && a.frameStart.None? ==> r == 0
    ensures a.frameStartHandle.None? && a.frameStart.Some? ==> r + a.handleStart.GetOr(0) == a.frameStart.value
  {
    match a.frameStartHandle
    case Some(s) => s
    case None =>
      match a.frameStart
      case None => 0
      case Some(s) =>
        if a.handleStart.Some? && a.handleStart.value != 0 then s - a.handleStart.value else s
  }

  /** The name this loader imprints as `loader`. */
  const LoaderName := "FusionLoadSequence"

  /** The new `Loader` of `load`: added to the comp, given the clip, renamed
      and moved so that its global in is `start`. The host gives the new
      tool the name `hostName`, the clip length `clipLength` and the inputs
      `clipInputs` once the clip is set. */
  method AddLoader(comp: Comp, name: string, mappedPath: string, start: int,
                   hostName: string, clipLength: int, clipInputs: map<InputId, Value>, shiftEffects: map<InputId, Value>)
    returns (tool: Tool)
    requires NumericAt(clipInputs, InputId.GlobalIn) && NumericAt(clipInputs, InputId.GlobalOut) && InputId.Clip !in clipInputs
    requires forall k :: k in shiftEffects ==> ShiftProtected(k)
    modifies comp`tools, comp`calls
    ensures fresh(tool) && comp.tools == old(comp.tools) + [tool]
    ensures tool.id == "Loader" && tool.name == name && tool.clipLength == clipLength && tool.data == Dict(map[])
    ensures InputAt(tool.inputs, InputId.Clip) == Str(mappedPath)
    ensures InputAt(tool.inputs, InputId.GlobalIn) == Int(start)
    ensures InputAt(tool.inputs, InputId.GlobalOut) == Int(start + clipInputs[InputId.GlobalOut].i - clipInputs[InputId.GlobalIn].i)
    ensures comp.calls == old(comp.calls) + [AddToolCall("Loader")]
  {
    tool := NewLoader(comp, name, mappedPath, hostName, clipLength, clipInputs);
    ghost var clipped := tool.inputs;
    var moved := LoaderShift(tool, start, false, shiftEffects);
    assert InputAt(tool.inputs, InputId.Clip) == InputAt(clipped, InputId.Clip);
  }

  /** The steps of `load` before the move: add the tool, write the clip and
      rename the tool. */
  method NewLoader(comp: Comp, name: string, mappedPath: string,
                   hostName: string, clipLength: int, clipInputs: map<InputId, Value>)
    returns (tool: Tool)
    requires InputId.Clip !in clipInputs
    modifies comp`tools, comp`calls
    ensures fresh(tool) && comp.tools == old(comp.tools) + [tool]
    ensures tool.id == "Loader" && tool.name == name && tool.clipLength == clipLength && tool.data == Dict(map[])
    ensures InputAt(tool.inputs, InputId.Clip) == Str(mappedPath)
    ensures forall k :: k in clipInputs ==> k in tool.inputs && tool.inputs[k] == clipInputs[k]
    ensures tool.writes == [InputWrite(InputId.Clip, Str(mappedPath)), NameWrite(name)]
    ensures comp.calls == old(comp.calls) + [AddToolCall("Loader")]
  {
    tool := comp.AddTool("Loader", hostName);
    tool.SetClip(InputId.Clip, mappedPath, clipLength, clipInputs);
    tool.SetName(name);
  }

  /** `FusionLoadSequence.load`: inside an undo chunk, a new `Loader` on the
      mapped path, moved to the version's start and imprinted as a container
      of this loader; the namespace falls back to the folder name. */
  method Load(comp: Comp, context: FusionPipeline.LoadContext, name: string, namespace: Option<string>,
              mappedPath: string, attrib: VersionAttrib,
              hostName: string, clipLength: int, clipInputs: map<InputId, Value>, shiftEffects: map<InputId, Value>)
    returns (tool: Tool)
    requires NumericAt(clipInputs, InputId.GlobalIn) && NumericAt(clipInputs, InputId.GlobalOut) && InputId.Clip !in clipInputs
    requires forall k :: k in shiftEffects ==> ShiftProtected(k)
    modifies comp`tools, comp`calls
    ensures fresh(tool) && comp.tools == old(comp.tools) + [tool]
    ensures tool.id == "Loader" && tool.name == name && tool.clipLength == clipLength
    ensures InputAt(tool.inputs, InputId.Clip) == Str(mappedPath)
    ensures InputAt(tool.inputs, InputId.GlobalIn) == Int(GetStart(attrib))
    ensures InputAt(tool.inputs, InputId.GlobalOut) ==
      Int(GetStart(attrib) + clipInputs[InputId.GlobalOut].i - clipInputs[InputId.GlobalIn].i)
    ensures FusionPipeline.ContainerOf(tool) == Some(FusionPipeline.Container(
      FusionPipeline.ImprintedFields(Some(name), Some(namespace.GetOr(context.folderName)), Some(LoaderName), context),
      name, tool))
    ensures comp.calls == old(comp.calls) + FusionLib.Chunk("Create Loader", [AddToolCall("Loader")], true)
  {
    ghost var calls0 := comp.calls;
    FusionLib.EnterLockAndUndo(comp, "Create Loader");
    tool := AddLoader(comp, name, mappedPath, GetStart(attrib), hostName, clipLength, clipInputs, shiftEffects);
    ImprintLoader(tool, name, namespace.GetOr(context.folderName), context);
    FusionLib.ExitLockAndUndo(comp, true);
    FusionLib.ChunkLog(calls0, "Create Loader", [AddToolCall("Loader")], true);
  }

  /** The imprint of `load`: on a tool with an empty store, the container
      that `parse_container` then reads back. */
  method ImprintLoader(tool: Tool, name: string, namespace: string, context: FusionPipeline.LoadContext)
    requires tool.data == Dict(map[])
    modifies tool`data, tool`writes
    ensures FusionPipeline.ContainerOf(tool) == Some(FusionPipeline.Container(
      FusionPipeline.ImprintedFields(Some(name), Some(namespace), Some(LoaderName), context), tool.name, tool))
  {
    FusionPipeline.ImprintContainer(tool, Some(name), Some(namespace), context, Some(LoaderName));
    FusionPipeline.ParseAfterImprint(Dict(map[]), Some(name), Some(namespace), Some(LoaderName), context);
  }

  /** The inputs `update` protects while the clip changes. */
  const UpdatePreserved: seq<InputId> := [InputId.HoldFirstFrame, InputId.HoldLastFrame, InputId.Reverse, InputId.Depth, InputId.KeyCode, InputId.TimeCodeOffset]

  /** Membership in `UpdatePreserved`. */
  predicate UpdateProtected(k: InputId) {
    k.HoldFirstFrame? || k.HoldLastFrame? || k.Reverse? || k.Depth? || k.KeyCode? || k.TimeCodeOffset?
  }

  /** What writing the clip inside `preserve_inputs` leaves: the new path,
      the protected inputs as they were, and every other input as the host
      left it after its `resets`. */
  ghost predicate ClipSwapped(before: map<InputId, Value>, after: map<InputId, Value>, mappedPath: string,
                              resets: map<InputId, Value>)
  {
    InputAt(after, InputId.Clip) == Str(mappedPath) &&
    (forall n :: UpdateProtected(n) ==> InputAt(after, n) == InputAt(before, n)) &&
    (forall k :: k != InputId.Clip && !UpdateProtected(k) ==> InputAt(after, k) == InputAt(before + resets, k))
  }

  /** What changing the clip inside `preserve_trim` and `preserve_inputs`
      leaves: the same, except that the trim is the one restored for the new
      clip. */
  ghost predicate ClipReplaced(before: map<InputId, Value>, after: map<InputId, Value>, mappedPath: string,
                               trim: (int, int), resets: map<InputId, Value>)
  {
    InputAt(after, InputId.Clip) == Str(mappedPath) &&
    InputAt(after, InputId.ClipTimeStart) == Int(trim.0) && InputAt(after, InputId.ClipTimeEnd) == Int(trim.1) &&
    (forall n :: UpdateProtected(n) ==> InputAt(after, n) == InputAt(before, n)) &&
    (forall k :: k != InputId.Clip && !k.ClipTimeStart? && !k.ClipTimeEnd? && !UpdateProtected(k) ==>
       InputAt(after, k) == InputAt(before + resets, k))
  }

  /** The inner scope of the clip change: `preserve_inputs` around the write
      of the new path. */
  method SwapClip(tool: Tool, mappedPath: string, clipLength: int, clipResets: map<InputId, Value>)
    requires InputId.Clip !in clipResets
    modifies tool`inputs, tool`writes, tool`clipLength
    ensures tool.clipLength == clipLength
    ensures ClipSwapped(old(tool.inputs), tool.inputs, mappedPath, clipResets)
    ensures tool.writes == old(tool.writes) + [InputWrite(InputId.Clip, Str(mappedPath))]
      + InputWrites(Snapshot(old(tool.inputs), UpdatePreserved))
  {
    ghost var inputs0 := tool.inputs;
    var saved := EnterPreserveInputs(tool, UpdatePreserved);
    tool.SetClip(InputId.Clip, mappedPath, clipLength, clipResets);
    ExitPreserveInputs(tool, saved);
    ClipSwapInputs(inputs0, tool.inputs, mappedPath, clipResets);
  }

  lemma ClipSwapInputs(inputs: map<InputId, Value>, after: map<InputId, Value>, mappedPath: string,
                       clipResets: map<InputId, Value>)
    requires InputId.Clip !in clipResets
    requires after == (inputs[InputId.Clip := Str(mappedPath)] + clipResets) + EntryMap(Snapshot(inputs, UpdatePreserved))
    ensures ClipSwapped(inputs, after, mappedPath, clipResets)
  {
    var during := inputs[InputId.Clip := Str(mappedPath)] + clipResets;
    RestoredProtected(inputs, during);
    RestoredOthers(inputs, during);
    assert InputAt(during, InputId.Clip) == Str(mappedPath);
    assert forall k :: k != InputId.Clip ==> InputAt(during, k) == InputAt(inputs + clipResets, k);
  }

  lemma RestoredProtected(inputs: map<InputId, Value>, during: map<InputId, Value>)
    ensures forall n :: UpdateProtected(n) ==> InputAt(during + EntryMap(Snapshot(inputs, UpdatePreserved)), n) == InputAt(inputs, n)
  {
    PreservedInputsRestored(inputs, during, UpdatePreserved);
    assert forall n :: UpdateProtected(n) ==> n in UpdatePreserved;
  }

  lemma RestoredOthers(inputs: map<InputId, Value>, during: map<InputId, Value>)
    ensures forall k :: !UpdateProtected(k) ==> InputAt(during + EntryMap(Snapshot(inputs, UpdatePreserved)), k) == InputAt(during, k)
  {
    PreservedInputsRestored(inputs, during, UpdatePreserved);
    assert forall k :: k in UpdatePreserved ==> UpdateProtected(k);
  }

  /** The clip change of `update`: `preserve_trim` around `preserve_inputs`
      around the write of the new path. */
  method ReplaceClip(tool: Tool, mappedPath: string, clipLength: int, clipResets: map<InputId, Value>)
    requires NumericAt(tool.inputs, InputId.ClipTimeStart) && NumericAt(tool.inputs, InputId.ClipTimeEnd)
    requires InputId.Clip !in clipResets
    modifies tool`inputs, tool`writes, tool`clipLength
    ensures tool.clipLength == clipLength
    ensures ClipReplaced(old(tool.inputs), tool.inputs, mappedPath,
      RestoreTrim(SaveTrim(old(tool.clipLength) - 1, old(tool.inputs[InputId.ClipTimeStart].i), old(tool.inputs[InputId.ClipTimeEnd].i)),
                  clipLength - 1),
      clipResets)
    ensures NumericAt(old(tool.inputs) + clipResets, InputId.GlobalIn) ==>
      NumericAt(tool.inputs, InputId.GlobalIn) && tool.inputs[InputId.GlobalIn] == (old(tool.inputs) + clipResets)[InputId.GlobalIn]
    ensures NumericAt(old(tool.inputs) + clipResets, InputId.GlobalOut) ==>
      NumericAt(tool.inputs, InputId.GlobalOut) && tool.inputs[InputId.GlobalOut] == (old(tool.inputs) + clipResets)[InputId.GlobalOut]
  {
    ghost var inputs0 := tool.inputs;
    var trim := EnterPreserveTrim(tool);
    SwapClip(tool, mappedPath, clipLength, clipResets);
    ghost var swapped := tool.inputs;
    ExitPreserveTrim(tool, trim);
    TrimRestored(inputs0, swapped, mappedPath, clipResets, RestoreTrim(trim, clipLength - 1));
    ClipReplacedGlobals(inputs0, tool.inputs, mappedPath, RestoreTrim(trim, clipLength - 1), clipResets);
  }

  lemma TrimRestored(before: map<InputId, Value>, swapped: map<InputId, Value>, mappedPath: string,
                     clipResets: map<InputId, Value>, trim: (int, int))
    requires ClipSwapped(before, swapped, mappedPath, clipResets)
    ensures ClipReplaced(before, swapped[InputId.ClipTimeStart := Int(trim.0)][InputId.ClipTimeEnd := Int(trim.1)],
                         mappedPath, trim, clipResets)
  {
  }

  /** The tool-level part of `update`: the clip change, the move of the
      global in to `start`, and the new imprinted representation. */
  method UpdateLoader(tool: Tool, representationId: string, mappedPath: string, start: int,
                      clipLength: int, clipResets: map<InputId, Value>, shiftEffects: map<InputId, Value>)
    requires NumericAt(tool.inputs, InputId.ClipTimeStart) && NumericAt(tool.inputs, InputId.ClipTimeEnd)
    requires NumericAt(tool.inputs + clipResets, InputId.GlobalIn) && NumericAt(tool.inputs + clipResets, InputId.GlobalOut)
    requires InputId.Clip !in clipResets
    requires forall k :: k in shiftEffects ==> ShiftProtected(k)
    modifies tool`inputs, tool`writes, tool`clipLength, tool`data
    ensures tool.clipLength == clipLength
    ensures ClipReplaced(old(tool.inputs), tool.inputs, mappedPath,
      RestoreTrim(SaveTrim(old(tool.clipLength) - 1, old(tool.inputs[InputId.ClipTimeStart].i), old(tool.inputs[InputId.ClipTimeEnd].i)),
                  clipLength - 1),
      Moved(old(tool.inputs) + clipResets, start))
    ensures tool.data == Set(old(tool.data), FusionPipeline.RepresentationKey, Str(representationId))
    ensures FusionPipeline.ParseAvalon(old(tool.data)).Some? ==>
      FusionPipeline.ParseAvalon(tool.data)
        == Some(FusionPipeline.ParseAvalon(old(tool.data)).value["representation" := Str(representationId)])
  {
    ReplaceAndMove(tool, mappedPath, start, clipLength, clipResets, shiftEffects);
    FusionPipeline.SetRepresentation(tool, representationId);
  }

  /** The input changes of `update`: the clip change, then the move of the
      global in to `start`. */
  method ReplaceAndMove(tool: Tool, mappedPath: string, start: int,
                        clipLength: int, clipResets: map<InputId, Value>, shiftEffects: map<InputId, Value>)
    requires NumericAt(tool.inputs, InputId.ClipTimeStart) && NumericAt(tool.inputs, InputId.ClipTimeEnd)
    requires NumericAt(tool.inputs + clipResets, InputId.GlobalIn) && NumericAt(tool.inputs + clipResets, InputId.GlobalOut)
    requires InputId.Clip !in clipResets
    requires forall k :: k in shiftEffects ==> ShiftProtected(k)
    modifies tool`inputs, tool`writes, tool`clipLength
    ensures tool.clipLength == clipLength
    ensures ClipReplaced(old(tool.inputs), tool.inputs, mappedPath,
      RestoreTrim(SaveTrim(old(tool.clipLength) - 1, old(tool.inputs[InputId.ClipTimeStart].i), old(tool.inputs[InputId.ClipTimeEnd].i)),
                  clipLength - 1),
      Moved(old(tool.inputs) + clipResets, start))
  {
    ghost var inputs0 := tool.inputs;
    ghost var trim := RestoreTrim(SaveTrim(tool.clipLength - 1, inputs0[InputId.ClipTimeStart].i, inputs0[InputId.ClipTimeEnd].i),
                                  clipLength - 1);
    ReplaceClip(tool, mappedPath, clipLength, clipResets);
    ghost var beforeShift := tool.inputs;
    var moved := LoaderShift(tool, start, false, shiftEffects);
    ShiftKeepsClip(inputs0, beforeShift, tool.inputs, mappedPath, trim, clipResets, start, moved);
  }

  /** The inputs with the global range moved so that it starts at `start`. */
  function Moved(inputs: map<InputId, Value>, start: int): (r: map<InputId, Value>)
    requires NumericAt(inputs, InputId.GlobalIn) && NumericAt(inputs, InputId.GlobalOut)
    ensures NumericAt(r, InputId.GlobalIn) && NumericAt(r, InputId.GlobalOut)
    ensures r[InputId.GlobalIn] == Int(start)
    ensures r[InputId.GlobalOut].i - r[InputId.GlobalIn].i == inputs[InputId.GlobalOut].i - inputs[InputId.GlobalIn].i
    ensures forall k :: k != InputId.GlobalIn && k != InputId.GlobalOut ==> InputAt(r, k) == InputAt(inputs, k)
  {
    inputs[InputId.GlobalIn := Int(start)][InputId.GlobalOut := Int(start + inputs[InputId.GlobalOut].i - inputs[InputId.GlobalIn].i)]
  }

  lemma ClipReplacedGlobals(before: map<InputId, Value>, after: map<InputId, Value>, mappedPath: string,
                            trim: (int, int), clipResets: map<InputId, Value>)
    requires ClipReplaced(before, after, mappedPath, trim, clipResets)
    ensures NumericAt(before + clipResets, InputId.GlobalIn) ==>
      NumericAt(after, InputId.GlobalIn) && after[InputId.GlobalIn] == (before + clipResets)[InputId.GlobalIn]
    ensures NumericAt(before + clipResets, InputId.GlobalOut) ==>
      NumericAt(after, InputId.GlobalOut) && after[InputId.GlobalOut] == (before + clipResets)[InputId.GlobalOut]
  {
    assert InputAt(after, InputId.GlobalIn) == InputAt(before + clipResets, InputId.GlobalIn);
    assert InputAt(after, InputId.GlobalOut) == InputAt(before + clipResets, InputId.GlobalOut);
  }

  lemma ShiftKeepsClip(before: map<InputId, Value>, mid: map<InputId, Value>, after: map<InputId, Value>,
                       mappedPath: string, trim: (int, int), clipResets: map<InputId, Value>, start: int, moved: int)
    requires NumericAt(before + clipResets, InputId.GlobalIn) && NumericAt(before + clipResets, InputId.GlobalOut)
    requires ClipReplaced(before, mid, mappedPath, trim, clipResets)
    requires NumericAt(mid, InputId.GlobalIn) && NumericAt(mid, InputId.GlobalOut)
    requires mid[InputId.GlobalIn] == (before + clipResets)[InputId.GlobalIn]
    requires mid[InputId.GlobalOut] == (before + clipResets)[InputId.GlobalOut]
    requires moved == start - mid[InputId.GlobalIn].i
    requires ShiftOutcome(mid, after, moved)
    ensures ClipReplaced(before, after, mappedPath, trim, Moved(before + clipResets, start))
  {
    var moved := Moved(before + clipResets, start);
  }

  /** `FusionLoadSequence.update` (and `switch`): on a `Loader`, inside an
      undo chunk, set the mapped path while keeping the trim and the
      protected inputs, move the global in to the version's start, and
      rewrite the imprinted representation. Anything but a `Loader` fails
      before any change. The host answers the clip change with `clipLength`
      and `clipResets`. */
  method Update(container: FusionPipeline.Container, comp: Comp, representationId: string, mappedPath: string,
                attrib: VersionAttrib, clipLength: int, clipResets: map<InputId, Value>, shiftEffects: map<InputId, Value>)
    returns (error: Option<string>)
    requires container.tool.id == "Loader" ==>
      NumericAt(container.tool.inputs, InputId.ClipTimeStart) && NumericAt(container.tool.inputs, InputId.ClipTimeEnd) &&
      NumericAt(container.tool.inputs + clipResets, InputId.GlobalIn) && NumericAt(container.tool.inputs + clipResets, InputId.GlobalOut)
    requires InputId.Clip !in clipResets
    requires forall k :: k in shiftEffects ==> ShiftProtected(k)
    modifies container.tool`inputs, container.tool`writes, container.tool`clipLength, container.tool`data, comp`calls
    ensures error.Some? <==> container.tool.id != "Loader"
    ensures error.Some? ==> unchanged(container.tool) && comp.calls == old(comp.calls)
    ensures error.None? ==>
      var tool := container.tool;
      tool.clipLength == clipLength &&
      ClipReplaced(old(tool.inputs), tool.inputs, mappedPath,
        RestoreTrim(SaveTrim(old(tool.clipLength) - 1, old(tool.inputs[InputId.ClipTimeStart].i), old(tool.inputs[InputId.ClipTimeEnd].i)),
                    clipLength - 1),
        Moved(old(tool.inputs) + clipResets, GetStart(attrib))) &&
      tool.data == Set(old(tool.data), FusionPipeline.RepresentationKey, Str(representationId)) &&
      comp.calls == old(comp.calls) + FusionLib.Chunk("Update Loader", [], true)
    ensures error.None? && FusionPipeline.ParseAvalon(old(container.tool.data)).Some? ==>
      FusionPipeline.ParseAvalon(container.tool.data)
        == Some(FusionPipeline.ParseAvalon(old(container.tool.data)).value["representation" := Str(representationId)])
  {
    var tool := container.tool;
    if tool.id != "Loader" {
      return Some("Must be Loader");
    }
    error := None;
    var start := GetStart(attrib);
    ghost var calls0 := comp.calls;
    FusionLib.EnterLockAndUndo(comp, "Update Loader");
    UpdateLoader(tool, representationId, mappedPath, start, clipLength, clipResets, shiftEffects);
    FusionLib.ExitLockAndUndo(comp, true);
    FusionLib.ChunkLog(calls0, "Update Loader", [], true);
  }

  /** `FusionLoadSequence.remove`: delete a `Loader` inside an undo chunk;
      anything else fails before any change. */
  method Remove(container: FusionPipeline.Container, comp: Comp) returns (error: Option<string>)
    modifies comp`tools, comp`calls
    ensures error.Some? <==> container.tool.id != "Loader"
    ensures error.Some? ==> comp.tools == old(comp.tools) && comp.calls == old(comp.calls)
    ensures error.None? ==>
      comp.tools == RemoveFirst(old(comp.tools), container.tool) &&
      comp.calls == old(comp.calls) + FusionLib.Chunk("Remove Loader", [DeleteCall(container.tool.name)], true)
  {
    if container.tool.id != "Loader" {
      return Some("Must be Loader");
    }
    error := None;
    ghost var calls0 := comp.calls;
    FusionLib.EnterLockAndUndo(comp, "Remove Loader");
    comp.Delete(container.tool);
    FusionLib.ExitLockAndUndo(comp, true);
    FusionLib.ChunkLog(calls0, "Remove Loader", [DeleteCall(container.tool.name)], true);
  }
}
