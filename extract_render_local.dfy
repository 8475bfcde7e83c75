/** The local render extractor (`FusionRenderLocal`): the `render.local`
    instances that share a frame range are rendered by one `comp.Render`
    call with only their savers enabled, the outcome is remembered on every
    instance of that batch, and each instance then gets a representation of
    its expected files. */
module ExtractRenderLocal {
  import opened Wrappers
  import opened HostData
  import opened Host
  import Strings
  import Paths
  import FusionLib
  import opened Publish
  import CollectRender

  /** Fusion's `REQF_Quiet` render flag: no "render completed" or "render
      failed" dialog. */
  const REQF_Quiet := 524288

  // ---------------------------------------------------------------------
  // enabled_savers

  /** The names of some tools. */
  function Names(tools: seq<Tool>): set<string>
    reads set t | t in tools
  {
    set t | t in tools :: t.name
  }

  /** The comp's savers, as `GetToolList(False, "Saver")` lists them: each
      tool once, each under its own name (the host renames a tool whose name
      would clash). */
  predicate DistinctSavers(allSavers: seq<Tool>)
    reads set t | t in allSavers
  {
    forall i, j :: 0 <= i < j < |allSavers| ==> allSavers[i].name != allSavers[j].name
  }

  /** The pass-through write a saver sees on entering an `enabled_savers`
      scope: the wanted state, only when it differs from the saver's own. */
  function EntryWrites(own: bool, wanted: bool): (w: seq<ToolWrite>)
    ensures |w| <= 1
    ensures |w| == 1 <==> wanted != own
    ensures |w| == 1 ==> w[0] == PassThroughWrite(wanted)
  {
    if wanted != own then [PassThroughWrite(wanted)] else []
  }

  /** One saver on entering the scope: record its state, and pass it through
      exactly when its name is not among the savers to render; the attribute
      is written only when it changes. */
  method PassThroughUnlessEnabled(t: Tool, enabled: set<string>) returns (original: bool)
    modifies t`passThrough, t`writes
    ensures original == old(t.passThrough)
    ensures t.passThrough == (t.name !in enabled)
    ensures t.writes == old(t.writes) + EntryWrites(original, t.name !in enabled)
  {
    original := t.passThrough;
    var state := t.name !in enabled;
    if state != original {
      t.SetPassThrough(state);
    }
  }

  /** A saver as the scope leaves it on entry, from its own state `own` and
      write log `log`: passed through exactly when its name is not enabled,
      with the pass-through attribute written only if that changed it. */
  predicate Entered(t: Tool, enabled: set<string>, own: bool, log: seq<ToolWrite>)
    reads t
  {
    t.passThrough == (t.name !in enabled) &&
    t.writes == log + EntryWrites(own, t.passThrough)
  }

  /** No tool appears twice. */
  predicate DistinctTools(tools: seq<Tool>) {
    forall i, j :: 0 <= i < j < |tools| ==> tools[i] != tools[j]
  }

  /** Savers with distinct names are distinct tools. */
  lemma DistinctSaversAreDistinctTools(allSavers: seq<Tool>)
    requires DistinctSavers(allSavers)
    ensures DistinctTools(allSavers)
  {
  }

  /** The loop of `enabled_savers` before its `yield`: in the comp's saver
      order, record each saver's state under its name and set it to the
      wanted one. */
  method PassThroughAllBut(allSavers: seq<Tool>, enabled: set<string>) returns (originals: seq<(string, bool)>)
    requires DistinctTools(allSavers)
    modifies allSavers`passThrough, allSavers`writes
    ensures |originals| == |allSavers|
    ensures forall i :: 0 <= i < |allSavers| ==>
      originals[i] == (allSavers[i].name, old(allSavers[i].passThrough)) &&
      Entered(allSavers[i], enabled, old(allSavers[i].passThrough), old(allSavers[i].writes))
  {
    originals := [];
    var n := 0;
    while n < |allSavers|
      invariant 0 <= n <= |allSavers| && |originals| == n
      invariant forall i :: 0 <= i < n ==>
        originals[i] == (allSavers[i].name, old(allSavers[i].passThrough)) &&
        Entered(allSavers[i], enabled, old(allSavers[i].passThrough), old(allSavers[i].writes))
      invariant forall i :: n <= i < |allSavers| ==>
        allSavers[i].passThrough == old(allSavers[i].passThrough) &&
        allSavers[i].writes == old(allSavers[i].writes)
    {
      var t := allSavers[n];
      var original := PassThroughUnlessEnabled(t, enabled);
      originals := originals + [(t.name, original)];
      n := n + 1;
    }
  }

  /** Entering `enabled_savers(comp, savers)`: the original states are
      recorded in the comp's saver order, keyed by name (`originals` is that
      ordered dictionary), every saver not named among `savers` is passed
      through and every saver named there is enabled; `byName` is the
      name-to-saver dictionary the exit uses. */
  method EnterEnabledSavers(allSavers: seq<Tool>, savers: seq<Tool>)
    returns (originals: seq<(string, bool)>, byName: map<string, Tool>)
    requires DistinctSavers(allSavers)
    modifies allSavers`passThrough, allSavers`writes
    ensures |originals| == |allSavers|
    ensures forall i :: 0 <= i < |allSavers| ==>
      originals[i] == (allSavers[i].name, old(allSavers[i].passThrough)) &&
      Entered(allSavers[i], old(Names(savers)), old(allSavers[i].passThrough), old(allSavers[i].writes))
    ensures byName.Keys == Names(allSavers)
    ensures forall i :: 0 <= i < |allSavers| ==> byName[allSavers[i].name] == allSavers[i]
  {
    var enabled := set t | t in savers :: t.name;
    byName := map i | 0 <= i < |allSavers| :: allSavers[i].name := allSavers[i];
    forall i | 0 <= i < |allSavers|
      ensures byName[allSavers[i].name] == allSavers[i]
    {
      assert allSavers[i].name in byName;
    }
    DistinctSaversAreDistinctTools(allSavers);
    originals := PassThroughAllBut(allSavers, enabled);
  }

  /** A saver after a whole `enabled_savers` scope, from its own state `own`
      and write log `log` on entry: back in its own state, after the writes
      of `EntryWrites` and the write-back. */
  predicate Scoped(t: Tool, enabled: set<string>, own: bool, log: seq<ToolWrite>)
    reads t
  {
    t.passThrough == own && t.writes == log + EntryWrites(own, t.name !in enabled) + [PassThroughWrite(own)]
  }

  /** Leaving `enabled_savers`, normally or by an exception: every recorded
      saver, found again by name, gets its recorded state written back, so a
      saver entered from its own state `own` and log `log` ends the scope
      `Scoped`. `savers` names, for the proof, the saver each record finds,
      and `logs` their write logs before the scope. */
  method ExitEnabledSavers(originals: seq<(string, bool)>, byName: map<string, Tool>,
                           ghost savers: seq<Tool>, ghost enabled: set<string>, ghost logs: seq<seq<ToolWrite>>)
    requires |savers| == |originals| == |logs| && DistinctTools(savers)
    requires forall i :: 0 <= i < |originals| ==> originals[i].0 in byName && byName[originals[i].0] == savers[i]
    requires forall i :: 0 <= i < |savers| ==> Entered(savers[i], enabled, originals[i].1, logs[i])
    modifies savers`passThrough, savers`writes
    ensures forall i :: 0 <= i < |savers| ==> Scoped(savers[i], enabled, originals[i].1, logs[i])
  {
    var n := 0;
    while n < |originals|
      invariant 0 <= n <= |originals|
      invariant forall i :: 0 <= i < n ==> Scoped(savers[i], enabled, originals[i].1, logs[i])
      invariant forall i :: n <= i < |originals| ==> Entered(savers[i], enabled, originals[i].1, logs[i])
    {
      var saver := byName[originals[n].0];
      saver.SetPassThrough(originals[n].1);
      n := n + 1;
    }
  }

  /** The write logs of the savers right now. */
  ghost method WriteLogs(allSavers: seq<Tool>) returns (logs: seq<seq<ToolWrite>>)
    ensures |logs| == |allSavers|
    ensures forall i :: 0 <= i < |allSavers| ==> logs[i] == allSavers[i].writes
  {
    logs := [];
    var n := 0;
    while n < |allSavers|
      invariant 0 <= n <= |allSavers| && |logs| == n
      invariant forall i :: 0 <= i < n ==> logs[i] == allSavers[i].writes
    {
      logs := logs + [allSavers[n].writes];
      n := n + 1;
    }
  }

  /** Which of the savers are live (not passed through) right now: those
      named in `enabled`, once every saver outside it is passed through. */
  ghost method LiveSavers(allSavers: seq<Tool>, enabled: set<string>) returns (live: seq<bool>)
    requires forall i :: 0 <= i < |allSavers| ==> allSavers[i].passThrough == (allSavers[i].name !in enabled)
    ensures |live| == |allSavers|
    ensures forall i :: 0 <= i < |allSavers| ==> live[i] == !allSavers[i].passThrough
    ensures forall i :: 0 <= i < |allSavers| ==> live[i] == (allSavers[i].name in enabled)
  {
    live := [];
    var n := 0;
    while n < |allSavers|
      invariant 0 <= n <= |allSavers| && |live| == n
      invariant forall i :: 0 <= i < n ==> live[i] == !allSavers[i].passThrough
    {
      live := live + [!allSavers[n].passThrough];
      n := n + 1;
    }
  }

  /** `comp.Render(...)` inside `enabled_savers(comp, savers)`, with
      `enabled` the names of `savers`. `live[i]` says whether the comp's
      `i`-th saver was live (not passed through) while the host rendered:
      exactly when it is named among `savers`. Afterwards every saver is back
      in its own state (`Scoped`). */
  method RenderWithSavers(comp: Comp, allSavers: seq<Tool>, savers: seq<Tool>,
                          start: int, end: int, flags: Option<int>, result: Value, ghost enabled: set<string>)
    returns (r: Value, ghost live: seq<bool>)
    requires DistinctSavers(allSavers) && enabled == Names(savers)
    modifies comp`calls, allSavers`passThrough, allSavers`writes
    ensures r == result
    ensures |live| == |allSavers|
    ensures forall i :: 0 <= i < |allSavers| ==> live[i] == (allSavers[i].name in enabled)
    ensures comp.calls == old(comp.calls) + [RenderCall(start, end, flags)]
    ensures forall i :: 0 <= i < |allSavers| ==>
      Scoped(allSavers[i], enabled, old(allSavers[i].passThrough), old(allSavers[i].writes))
  {
    ghost var logs := WriteLogs(allSavers);
    var originals, byName := EnterEnabledSavers(allSavers, savers);
    live := LiveSavers(allSavers, enabled);
    r := comp.Render(start, end, flags, result);
    DistinctSaversAreDistinctTools(allSavers);
    ExitEnabledSavers(originals, byName, allSavers, enabled, logs);
  }

  // ---------------------------------------------------------------------
  // get_render_instances_by_frame_range

  /** An instance the extractor renders: active (`publish`, true when
      absent) and of the `render.local` family. */
  predicate ToRender(inst: PublishInstance) {
    inst.publish && "render.local" in inst.families
  }

  /** `get_instance_render_frame_range`: the frame range with handles. */
  function RangeOf(inst: PublishInstance): (int, int) {
    (inst.frameStartHandle, inst.frameEndHandle)
  }

  /** The instances to render, in context order. */
  function Selected(context: seq<PublishInstance>): (s: seq<PublishInstance>)
    ensures forall b :: b in s ==> b in context && ToRender(b)
    ensures forall b :: b in context && ToRender(b) ==> b in s
  {
    if context == [] then []
    else
      var last := context[|context| - 1];
      Selected(context[..|context| - 1]) + (if ToRender(last) then [last] else [])
  }

  /** The instances of `insts` over `range`, in their order. */
  function Group(insts: seq<PublishInstance>, range: (int, int)): (g: seq<PublishInstance>)
    ensures forall b :: b in g ==> b in insts && RangeOf(b) == range
    ensures forall b :: b in insts && RangeOf(b) == range ==> b in g
  {
    if insts == [] then []
    else
      var last := insts[|insts| - 1];
      Group(insts[..|insts| - 1], range) + (if RangeOf(last) == range then [last] else [])
  }

  /** The batch rendered together over `range`. */
  function Batch(context: seq<PublishInstance>, range: (int, int)): seq<PublishInstance> {
    Group(Selected(context), range)
  }

  /** The frame ranges of some instances. */
  function Ranges(insts: seq<PublishInstance>): set<(int, int)> {
    set b | b in insts :: RangeOf(b)
  }

  /** `get_render_instances_by_frame_range(context)`: one key per frame range
      of an instance to render, and under it the instances to render over that
      range in context order. */
  method InstancesByFrameRange(context: seq<PublishInstance>)
    returns (groups: map<(int, int), seq<PublishInstance>>)
    ensures groups.Keys == Ranges(Selected(context))
    ensures forall range :: range in groups ==> groups[range] == Batch(context, range)
  {
    groups := GroupByRange(Selected(context));
  }

  /** The dictionary the loop of `get_render_instances_by_frame_range`
      builds over `insts`: each instance appended under its range, a new key
      when the range is new. */
  function GroupMap(insts: seq<PublishInstance>): map<(int, int), seq<PublishInstance>> {
    if insts == [] then map[]
    else
      var groups := GroupMap(insts[..|insts| - 1]);
      var last := insts[|insts| - 1];
      var range := RangeOf(last);
      groups[range := (if range in groups then groups[range] else []) + [last]]
  }

  /** The dictionary holds one key per range and, under it, the group. */
  lemma {:induction false} GroupMapGroups(insts: seq<PublishInstance>)
    ensures GroupsOf(GroupMap(insts), insts)
  {
    if insts != [] {
      var n := |insts| - 1;
      GroupMapGroups(insts[..n]);
      GroupingStep(insts, n, GroupMap(insts[..n]));
      assert insts[..n + 1] == insts;
    }
  }

  /** The loop of `get_render_instances_by_frame_range`, over the instances
      to render. */
  method GroupByRange(toRender: seq<PublishInstance>) returns (groups: map<(int, int), seq<PublishInstance>>)
    ensures GroupsOf(groups, toRender)
  {
    groups := map[];
    var n := 0;
    while n < |toRender|
      invariant 0 <= n <= |toRender|
      invariant groups == GroupMap(toRender[..n])
    {
      var range := RangeOf(toRender[n]);
      var members := if range in groups then groups[range] else [];
      groups := groups[range := members + [toRender[n]]];
      assert toRender[..n + 1][..n] == toRender[..n];
      n := n + 1;
    }
    assert toRender[..n] == toRender;
    GroupMapGroups(toRender);
  }

  /** The grouping of a prefix, keyed by range. */
  ghost predicate GroupsOf(groups: map<(int, int), seq<PublishInstance>>, insts: seq<PublishInstance>) {
    groups.Keys == Ranges(insts) &&
    forall range :: range in groups ==> groups[range] == Group(insts, range)
  }

  /** One step of the loop of `get_render_instances_by_frame_range`:
      appending the next instance under its range (a new key when the range
      is new) groups one more instance. */
  lemma GroupingStep(insts: seq<PublishInstance>, n: nat, groups: map<(int, int), seq<PublishInstance>>)
    requires n < |insts| && GroupsOf(groups, insts[..n])
    ensures var range := RangeOf(insts[n]);
      GroupsOf(groups[range := (if range in groups then groups[range] else []) + [insts[n]]], insts[..n + 1])
  {
    var range := RangeOf(insts[n]);
    GroupStep(insts, n);
    if Group(insts[..n], range) != [] {
      var b := Group(insts[..n], range)[0];
      assert b in insts[..n] && RangeOf(b) == range;
      assert range in Ranges(insts[..n]);
    }
    var next := groups[range := (if range in groups then groups[range] else []) + [insts[n]]];
    assert next.Keys == groups.Keys + {range};
    forall k | k in next ensures next[k] == Group(insts[..n + 1], k) {
      if k != range {
        assert next[k] == groups[k];
      }
    }
  }

  /** One more instance extends the grouping of a prefix by that instance's
      range and appends it to that range's group only. */
  lemma GroupStep(insts: seq<PublishInstance>, n: nat)
    requires n < |insts|
    ensures Ranges(insts[..n + 1]) == Ranges(insts[..n]) + {RangeOf(insts[n])}
    ensures forall range :: (Group(insts[..n + 1], range) ==
      Group(insts[..n], range) + (if RangeOf(insts[n]) == range then [insts[n]] else []))
  {
    assert insts[..n + 1] == insts[..n] + [insts[n]];
    assert insts[..n + 1][..n] == insts[..n];
  }

  /** A selected instance belongs to the batch of its own frame range. */
  lemma InBatchOfOwnRange(context: seq<PublishInstance>, inst: PublishInstance)
    requires inst in context && ToRender(inst)
    ensures inst in Batch(context, RangeOf(inst))
    ensures RangeOf(inst) in Ranges(Selected(context))
  {
  }

  /** The range of an instance is a key of the grouping exactly when its
      batch is not empty. */
  lemma KeyedIffBatch(context: seq<PublishInstance>, range: (int, int))
    ensures range in Ranges(Selected(context)) <==> Batch(context, range) != []
  {
    if Batch(context, range) != [] {
      assert Batch(context, range)[0] in Batch(context, range);
    }
  }

  /** Selecting keeps the context's order: the selection of a concatenation
      is the concatenation of the selections. */
  lemma {:induction false} SelectedAppend(a: seq<PublishInstance>, b: seq<PublishInstance>)
    ensures Selected(a + b) == Selected(a) + Selected(b)
    decreases |b|
  {
    if b == [] {
      assert a + b == a;
    } else {
      var c := b[..|b| - 1];
      var x := b[|b| - 1];
      assert (a + b)[..|a + b| - 1] == a + c && (a + b)[|a + b| - 1] == x;
      SelectedAppend(a, c);
      assert Selected(a + b) == Selected(a + c) + (if ToRender(x) then [x] else []);
      assert Selected(b) == Selected(c) + (if ToRender(x) then [x] else []);
    }
  }

  /** Grouping keeps the order too. */
  lemma {:induction false} GroupAppend(a: seq<PublishInstance>, b: seq<PublishInstance>, range: (int, int))
    ensures Group(a + b, range) == Group(a, range) + Group(b, range)
    decreases |b|
  {
    if b == [] {
      assert a + b == a;
    } else {
      var c := b[..|b| - 1];
      var x := b[|b| - 1];
      assert (a + b)[..|a + b| - 1] == a + c && (a + b)[|a + b| - 1] == x;
      GroupAppend(a, c, range);
      assert Group(a + b, range) == Group(a + c, range) + (if RangeOf(x) == range then [x] else []);
      assert Group(b, range) == Group(c, range) + (if RangeOf(x) == range then [x] else []);
    }
  }

  /** So an instance earlier in the context comes earlier in its batch. */
  lemma BatchKeepsOrder(a: seq<PublishInstance>, b: seq<PublishInstance>, range: (int, int))
    ensures Batch(a + b, range) == Batch(a, range) + Batch(b, range)
  {
    SelectedAppend(a, b);
    GroupAppend(Selected(a), Selected(b), range);
  }

  // ---------------------------------------------------------------------
  // render

  /** How the extraction of one instance stops. */
  datatype RenderError =
    | KeyError          // no batch has the instance's frame range
    | RenderRaised      // the host's render raised
    | RenderFailed      // `RuntimeError`: the render returned `False`
    | NoExpectedFiles   // `IndexError` at `expected_files[0]`

  /** What `render(instance)` returns, from what the instance already holds
      (`cached`), whether its frame range has a batch, and what the host's
      render did (`None`: it raised). */
  function Outcome(cached: Option<bool>, hasBatch: bool, hostResult: Option<Value>): Result<Value, RenderError> {
    if cached.Some? then Success(Bool(cached.value))
    else if !hasBatch then Failure(KeyError)
    else if hostResult.None? then Failure(RenderRaised)
    else Success(hostResult.value)
  }

  /** The render flags: `REQF_Quiet` exactly when dialogs are suppressed. */
  function Flags(suppressDialogs: bool): (f: Option<int>)
    ensures f.Some? <==> suppressDialogs
    ensures f.Some? ==> f.value == 524288
  {
    if suppressDialogs then Some(REQF_Quiet) else None
  }

  /** The comp calls of one batch render: inside a lock and undo chunk, the
      render over the batch's range, then the write-back of the four
      range attributes `maintained_comp_range` recorded. */
  function RenderLog(range: FrameRange, frames: (int, int), suppressDialogs: bool): seq<HostCall> {
    FusionLib.Chunk("Script CMD",
      [RenderCall(frames.0, frames.1, Flags(suppressDialogs)),
       SetAttrsCall(FusionLib.PreservedRange(range, true, true, true, true))], true)
  }

  /** The names of the savers of a batch (`instance.data["tool"]`). */
  function BatchSaverNames(batch: seq<PublishInstance>): set<string>
    reads set b | b in batch :: b.tool
  {
    set b | b in batch :: b.tool.name
  }

  /** The savers of a batch (`[instance.data["tool"] for instance in instances]`). */
  function ToolsOf(batch: seq<PublishInstance>): (tools: seq<Tool>)
    ensures |tools| == |batch| && forall i :: 0 <= i < |batch| ==> tools[i] == batch[i].tool
  {
    seq(|batch|, i requires 0 <= i < |batch| => batch[i].tool)
  }

  /** The names of a batch's savers, collected from the tools. */
  lemma ToolsOfNames(batch: seq<PublishInstance>)
    ensures Names(ToolsOf(batch)) == BatchSaverNames(batch)
  {
    var savers := ToolsOf(batch);
    forall name | name in BatchSaverNames(batch) ensures name in Names(savers) {
      var b :| b in batch && b.tool.name == name;
      var i :| 0 <= i < |batch| && batch[i] == b;
      assert savers[i] == b.tool;
    }
  }

  /** Marks every instance of the batch with the same render state; the
      other instances of the context are left as they were. */
  method MarkBatch(context: seq<PublishInstance>, batch: seq<PublishInstance>, state: bool)
    requires forall b :: b in batch ==> b in context
    modifies context`rendered
    ensures forall b :: b in context ==> b.rendered == if b in batch then Some(state) else old(b.rendered)
  {
    var n := 0;
    while n < |batch|
      invariant 0 <= n <= |batch|
      invariant forall b :: b in context ==>
        b.rendered == if b in batch[..n] then Some(state) else old(b.rendered)
    {
      assert batch[n] in context;
      batch[n].rendered := Some(state);
      assert batch[..n + 1] == batch[..n] + [batch[n]];
      n := n + 1;
    }
    assert batch[..n] == batch;
  }

  /** The render itself, from `comp_lock_and_undo_chunk` to the end of
      `maintained_comp_range`: the comp's calls grow by `RenderLog` and its
      range is back to what it was, and every saver is scoped to the names of
      `savers` as `RenderWithSavers` states. */
  method RenderScope(comp: Comp, allSavers: seq<Tool>, savers: seq<Tool>, frames: (int, int),
                     suppressDialogs: bool, hostResult: Value, ghost enabled: set<string>)
    returns (result: Value, ghost live: seq<bool>)
    requires DistinctSavers(allSavers) && enabled == Names(savers)
    modifies comp`calls, comp`range, allSavers`passThrough, allSavers`writes
    ensures result == hostResult
    ensures comp.calls == old(comp.calls) + RenderLog(old(comp.range), frames, suppressDialogs)
    ensures comp.range == old(comp.range)
    ensures |live| == |allSavers|
    ensures forall i :: 0 <= i < |allSavers| ==> live[i] == (allSavers[i].name in enabled)
    ensures forall i :: 0 <= i < |allSavers| ==>
      Scoped(allSavers[i], enabled, old(allSavers[i].passThrough), old(allSavers[i].writes))
  {
    ghost var range0 := comp.range;
    ghost var calls0 := comp.calls;
    FusionLib.EnterLockAndUndo(comp, "Script CMD");
    var saved := FusionLib.PreservedRange(comp.range, true, true, true, true);
    result, live := RenderWithSavers(comp, allSavers, savers, frames.0, frames.1, Flags(suppressDialogs), hostResult, enabled);
    FusionLib.ExitMaintainedRange(comp, saved);
    FusionLib.ExitLockAndUndo(comp, true);
    FusionLib.ChunkLog(calls0, "Script CMD", [RenderCall(frames.0, frames.1, Flags(suppressDialogs)), SetAttrsCall(saved)], true);
    FusionLib.MaintainedRangeRestores(range0, range0, true, true, true, true);
  }

  /** The state a batch render leaves behind, for an instance whose frame
      range has a batch and that was not rendered before: the comp's calls
      are those of `RenderLog` and its range is as it was; every instance of
      the batch holds `bool(result)` (`False` when the render raised) and
      every other instance is as it was; every saver is back in its own
      state after the writes of `EntryWrites` and the write-back. */
  twostate predicate RenderedBatch(inst: PublishInstance, context: seq<PublishInstance>, comp: Comp,
                                   allSavers: seq<Tool>, suppressDialogs: bool, hostResult: Option<Value>)
    reads comp, set b | b in context, set t | t in allSavers, set b | b in context :: b.tool
  {
    var batch := Batch(context, RangeOf(inst));
    comp.calls == old(comp.calls) + RenderLog(old(comp.range), RangeOf(inst), suppressDialogs) &&
    comp.range == old(comp.range) &&
    (forall b :: b in context ==>
      b.rendered == (if b in batch then Some(hostResult.Some? && Truthy(hostResult.value)) else old(b.rendered))) &&
    (forall i :: 0 <= i < |allSavers| ==>
      Scoped(allSavers[i], old(BatchSaverNames(batch)), old(allSavers[i].passThrough), old(allSavers[i].writes)))
  }

  /** The part of `render(instance)` after the lookup found the batch. */
  method RenderFresh(inst: PublishInstance, context: seq<PublishInstance>, batch: seq<PublishInstance>, comp: Comp,
                     allSavers: seq<Tool>, suppressDialogs: bool, hostResult: Option<Value>)
    returns (r: Result<Value, RenderError>, ghost live: seq<bool>)
    requires batch == Batch(context, RangeOf(inst)) && DistinctSavers(allSavers)
    modifies comp`calls, comp`range, context`rendered, allSavers`passThrough, allSavers`writes
    ensures r == Outcome(None, true, hostResult)
    ensures RenderedBatch(inst, context, comp, allSavers, suppressDialogs, hostResult)
    ensures |live| == |allSavers|
    ensures forall i :: 0 <= i < |allSavers| ==> live[i] == (allSavers[i].name in old(BatchSaverNames(batch)))
  {
    ghost var enabled := BatchSaverNames(batch);
    MarkBatch(context, batch, false);
    var savers := ToolsOf(batch);
    ToolsOfNames(batch);
    var result;
    result, live := RenderScope(comp, allSavers, savers, RangeOf(inst), suppressDialogs, hostResult.GetOr(Null), enabled);
    if hostResult.None? {
      return Failure(RenderRaised), live;
    }
    MarkBatch(context, batch, Truthy(result));
    r := Success(result);
  }

  /** `render(instance)`. An instance already marked returns its mark and
      nothing happens; an instance whose range has no batch stops at the
      dictionary lookup. Otherwise the batch is marked `False`, the comp
      renders the batch's range once, under a lock and undo chunk, with its
      range maintained and only the batch's savers live (`live`), and every
      instance of the batch is marked with `bool(result)`. */
  method RenderBatch(inst: PublishInstance, context: seq<PublishInstance>, comp: Comp,
                     allSavers: seq<Tool>, suppressDialogs: bool, hostResult: Option<Value>)
    returns (r: Result<Value, RenderError>, ghost live: seq<bool>)
    requires inst in context && DistinctSavers(allSavers)
    modifies comp`calls, comp`range, context`rendered, allSavers`passThrough, allSavers`writes
    ensures r == Outcome(old(inst.rendered), Batch(context, RangeOf(inst)) != [], hostResult)
    ensures old(inst.rendered).Some? || Batch(context, RangeOf(inst)) == [] ==>
      comp.calls == old(comp.calls) && comp.range == old(comp.range) &&
      (forall b :: b in context ==> b.rendered == old(b.rendered)) &&
      (forall t :: t in allSavers ==> t.passThrough == old(t.passThrough) && t.writes == old(t.writes))
    ensures old(inst.rendered).None? && Batch(context, RangeOf(inst)) != [] ==>
      RenderedBatch(inst, context, comp, allSavers, suppressDialogs, hostResult) &&
      |live| == |allSavers| && (forall i :: 0 <= i < |allSavers| ==> live[i] == (allSavers[i].name in old(BatchSaverNames(Batch(context, RangeOf(inst))))))
  {
    if inst.rendered.Some? {
      return Success(Bool(inst.rendered.value)), [];
    }
    var groups := InstancesByFrameRange(context);
    var range := RangeOf(inst);
    KeyedIffBatch(context, range);
    if range !in groups {
      return Failure(KeyError), [];
    }
    var batch := groups[range];
    r, live := RenderFresh(inst, context, batch, comp, allSavers, suppressDialogs, hostResult);
  }

  // ---------------------------------------------------------------------
  // _add_representation

  /** The representation `_add_representation` builds: the padding and
      extension `get_frame_path` finds in the first expected path (whole),
      the first frame with handles printed with that padding, the file names
      (one name on its own for a single file), the first path's directory
      as staging directory, and the tags `review` then `need_thumbnail` as
      the instance asks. The colorspace data is not part of this model. */
  function LocalRepresentation(files: seq<string>, start: int, review: bool, needThumbnail: bool): (repre: Representation)
    requires |files| > 0
    ensures |files| == 1 ==> repre.files == SingleFile(Paths.Basename(files[0]))
    ensures |files| > 1 ==> repre.files == FileList(CollectRender.Basenames(files))
    ensures repre.stagingDir == Paths.Dirname(files[0])
    ensures repre.tags.Some? <==> review || needThumbnail
    ensures repre.tags.Some? ==>
      ("review" in repre.tags.value <==> review) &&
      ("need_thumbnail" in repre.tags.value <==> needThumbnail) &&
      |repre.tags.value| == (if review then 1 else 0) + (if needThumbnail then 1 else 0) &&
      (review ==> repre.tags.value[0] == "review")
  {
    var parts := FusionLib.GetFramePath(files[0]);
    var names := CollectRender.Basenames(files);
    var tags := if review then Some(["review"]) else None;
    var tags' := if needThumbnail then Some(tags.GetOr([]) + ["need_thumbnail"]) else tags;
    Representation(Undotted(parts.2), Undotted(parts.2), Strings.PadFrame(start, parts.1),
                   if |files| == 1 then SingleFile(names[0]) else FileList(names),
                   Paths.Dirname(files[0]), tags')
  }

  /** The representation of an instance with expected files. */
  function LocalOf(inst: PublishInstance): Representation
    requires |inst.expectedFiles| > 0
  {
    LocalRepresentation(inst.expectedFiles, inst.frameStart - inst.handleStart, inst.review, inst.needThumbnail)
  }

  /** `_add_representation(instance)`: appends the representation; with no
      expected file it stops at `expected_files[0]` before changing
      anything. */
  method AddLocalRepresentation(inst: PublishInstance) returns (ok: bool)
    modifies inst`representations
    ensures ok <==> |inst.expectedFiles| > 0
    ensures !ok ==> inst.representations == old(inst.representations)
    ensures ok ==> inst.representations == Some(old(inst.representations).GetOr([]) + [LocalOf(inst)])
  {
    if |inst.expectedFiles| == 0 {
      return false;
    }
    inst.AddRepresentation(LocalOf(inst));
    ok := true;
  }

  /** On the files the render collector expects, the whole first path gives
      the same padding and extension as its file name, so the extractor's
      representation is the collector's frames representation with the file
      list of a single frame unwrapped and with the `need_thumbnail` tag
      added when asked; the whole-path split needs a newline-free output
      directory. */
  lemma LocalMatchesFrames(outputDir: string, head: string, padding: nat, ext: string,
                           start: int, count: nat, review: bool, needThumbnail: bool)
    requires CollectRender.NameParts(head, padding, ext) && '\n' !in outputDir
    requires count >= 1 && 0 <= start && start + count <= Strings.Pow10(padding)
    ensures var files := CollectRender.ExpectedPaths(outputDir, head, padding, ext, start, count);
      var frames := CollectRender.FramesRepresentation(files, start, review);
      var local := LocalRepresentation(files, start, review, needThumbnail);
      local.name == frames.name && local.ext == frames.ext && local.frameStart == frames.frameStart &&
      local.stagingDir == frames.stagingDir &&
      (count > 1 ==> local.files == frames.files) &&
      (count == 1 ==> frames.files.FileList? && local.files == SingleFile(frames.files.names[0])) &&
      (!needThumbnail ==> local.tags == frames.tags)
  {
    FirstExpectedParts(outputDir, head, padding, ext, start, count);
  }

  /** The padding and extension `get_frame_path` finds in the first expected
      path are the same whether it is given the whole path or its file
      name. */
  lemma FirstExpectedParts(outputDir: string, head: string, padding: nat, ext: string, start: int, count: nat)
    requires CollectRender.NameParts(head, padding, ext) && '\n' !in outputDir
    requires count >= 1 && 0 <= start && start + count <= Strings.Pow10(padding)
    ensures var files := CollectRender.ExpectedPaths(outputDir, head, padding, ext, start, count);
      |files| == count &&
      FusionLib.GetFramePath(files[0]).1 == FusionLib.GetFramePath(Paths.Basename(files[0])).1 &&
      FusionLib.GetFramePath(files[0]).2 == FusionLib.GetFramePath(Paths.Basename(files[0])).2
  {
    var files := CollectRender.ExpectedPaths(outputDir, head, padding, ext, start, count);
    var path := CollectRender.FramePath(outputDir, head, padding, ext, start);
    CollectRender.ExpectedPathAt(outputDir, head, padding, ext, start, count, 0);
    assert files[0] == path;
    FramePathParts(outputDir, head, padding, ext, start);
    assert FusionLib.GetFramePath(Paths.Basename(path)) == (head, padding, ext);
  }

  /** `get_frame_path` finds the same padding and extension in an expected
      path and in its file name. */
  lemma FramePathParts(outputDir: string, head: string, padding: nat, ext: string, frame: int)
    requires CollectRender.NameParts(head, padding, ext) && '\n' !in outputDir
    requires 0 <= frame < Strings.Pow10(padding)
    ensures var path := CollectRender.FramePath(outputDir, head, padding, ext, frame);
      FusionLib.GetFramePath(path).1 == padding && FusionLib.GetFramePath(path).2 == ext &&
      FusionLib.GetFramePath(Paths.Basename(path)) == (head, padding, ext)
  {
    var digits := Strings.PadFrame(frame, padding);
    CollectRender.ExpectedFileReadsBack(outputDir, head, padding, ext, frame);
    WholePathParts(outputDir, head, digits, ext);
  }

  /** `get_frame_path` on a saver path joined from a directory and a file
      name finds the file name's padding and extension. */
  lemma WholePathParts(outputDir: string, head: string, digits: string, ext: string)
    requires '\n' !in outputDir && '\n' !in head && '/' !in head
    requires head == [] || !Strings.IsDigit(head[|head| - 1])
    requires |digits| >= 1 && Strings.AllDigits(digits)
    requires |ext| > 0 && ext[0] == '.' && '/' !in ext && '.' !in ext[1..]
    ensures var parts := FusionLib.GetFramePath(Paths.Join2(outputDir, head + digits + ext));
      parts.1 == |digits| && parts.2 == ext
  {
    var name := head + digits + ext;
    assert name[0] != '/' by {
      if head == [] {
        assert name[0] == digits[0];
      } else {
        assert name[0] == head[0];
      }
    }
    var prefix := if outputDir == [] || outputDir[|outputDir| - 1] == '/' then outputDir else outputDir + "/";
    assert Paths.Join2(outputDir, name) == (prefix + head) + digits + ext;
    assert '\n' !in prefix + head;
    assert prefix + head == [] || !Strings.IsDigit((prefix + head)[|prefix + head| - 1]) by {
      if head != [] {
        assert (prefix + head)[|prefix + head| - 1] == head[|head| - 1];
      } else {
        assert prefix + head == prefix;
      }
    }
    FusionLib.GetFramePathRoundTrip(prefix + head, digits, ext);
  }

  // ---------------------------------------------------------------------
  // process

  /** How `process(instance)` ends, from what `render` returned and whether
      the instance has expected files: a `RuntimeError` exactly when the
      render returned `False`, any other result goes on to the
      representation. */
  function ProcessOutcome(rendered: Result<Value, RenderError>, hasFiles: bool): Result<(), RenderError> {
    match rendered
    case Failure(e) => Failure(e)
    case Success(v) =>
      if v == Bool(false) then Failure(RenderFailed)
      else if !hasFiles then Failure(NoExpectedFiles)
      else Success(())
  }

  /** `process(instance)`: render (or read the batch's mark), stop with
      `RuntimeError` on a `False` result, then add the representation. */
  method Process(inst: PublishInstance, context: seq<PublishInstance>, comp: Comp,
                 allSavers: seq<Tool>, suppressDialogs: bool, hostResult: Option<Value>)
    returns (r: Result<(), RenderError>, ghost live: seq<bool>)
    requires inst in context && DistinctSavers(allSavers)
    modifies comp`calls, comp`range, context`rendered, inst`representations,
             allSavers`passThrough, allSavers`writes
    ensures r == ProcessOutcome(Outcome(old(inst.rendered), Batch(context, RangeOf(inst)) != [], hostResult),
                                |inst.expectedFiles| > 0)
    ensures inst.representations ==
      if r.Success? then Some(old(inst.representations).GetOr([]) + [LocalOf(inst)]) else old(inst.representations)
    ensures old(inst.rendered).Some? || Batch(context, RangeOf(inst)) == [] ==>
      comp.calls == old(comp.calls) && comp.range == old(comp.range) &&
      (forall b :: b in context ==> b.rendered == old(b.rendered)) &&
      (forall t :: t in allSavers ==> t.passThrough == old(t.passThrough) && t.writes == old(t.writes))
    ensures old(inst.rendered).None? && Batch(context, RangeOf(inst)) != [] ==>
      RenderedBatch(inst, context, comp, allSavers, suppressDialogs, hostResult) &&
      |live| == |allSavers| && (forall i :: 0 <= i < |allSavers| ==> live[i] == (allSavers[i].name in old(BatchSaverNames(Batch(context, RangeOf(inst))))))
  {
    var rendered;
    rendered, live := RenderBatch(inst, context, comp, allSavers, suppressDialogs, hostResult);
    if rendered.Failure? {
      return Failure(rendered.error), live;
    }
    if rendered.value == Bool(false) {
      return Failure(RenderFailed), live;
    }
    var ok := AddLocalRepresentation(inst);
    if !ok {
      return Failure(NoExpectedFiles), live;
    }
    r := Success(());
  }

  /** `process` raises `RuntimeError` exactly when `render` returned
      `False`: for a fresh render, exactly when the host returned `False`;
      for a marked instance, exactly when its mark is `False`. */
  lemma RuntimeErrorIffFalse(cached: Option<bool>, hasBatch: bool, hostResult: Option<Value>, hasFiles: bool)
    ensures ProcessOutcome(Outcome(cached, hasBatch, hostResult), hasFiles) == Failure(RenderFailed) <==>
      (cached.Some? && !cached.value) ||
      (cached.None? && hasBatch && hostResult == Some(Bool(false)))
  {
  }

  /** The mark a batch render leaves makes each later instance of the batch
      end as the rendered one did whenever the host answered with a boolean;
      a falsy non-boolean answer (say `None`) lets the rendered instance
      through but stops its batch-mates with `RuntimeError`. */
  lemma BatchMatesAgree(v: Value, hasFiles: bool)
    ensures var first := ProcessOutcome(Outcome(None, true, Some(v)), hasFiles);
      var mate := ProcessOutcome(Outcome(Some(Truthy(v)), true, None), hasFiles);
      (v.Bool? ==> mate == first) &&
      (!v.Bool? && !Truthy(v) ==> first != Failure(RenderFailed) && mate == Failure(RenderFailed))
  {
  }
}
