/** The render collector: it turns every active `render` or `image` instance
    of the publish context into a render instance (resolution, frame range,
    families per render target), lists the files a render will write, and,
    for instances rendered from existing frames, attaches the representation
    of those frames. */
module CollectRender {
  import opened Wrappers
  import opened HostData
  import opened Host
  import Strings
  import Paths
  import FusionLib
  import opened Publish

  // ---------------------------------------------------------------------
  // get_instances

  /** What the collector reads of an instance a creator made: `active` is
      `data.get("active")` (`None` when the key is absent), `tool` is
      `data["transientData"]["tool"]`, `renderTarget` is
      `data["creator_attributes"]["render_target"]`; an absent `families` or
      `publish_attributes` key reads as empty and an absent `deadline` as
      `None`. */
  datatype SourceInstance = SourceInstance(
    active: Option<Value>,
    productType: string,
    tool: Tool,
    families: seq<string>,
    productName: string,
    title: string,
    folderPath: string,
    task: string,
    frameStart: int,
    frameEnd: int,
    handleStart: int,
    handleEnd: int,
    frameStartHandle: int,
    frameEndHandle: int,
    publishAttributes: map<string, Value>,
    renderTarget: string,
    deadline: Option<Value>)

  /** The context data the collector reads: `currentFile`, `version` (when
      set), `projectEntity`, and the host application's `Version`. */
  datatype CollectContext = CollectContext(currentFile: string, version: Option<Value>,
                                           projectEntity: Value, appVersion: Value)

  /** The resolution of a render instance: read from the saver's input, or,
      when the probe raises `ValueError`, the comp's frame-format `Width` and
      `Height` preferences (each `None` when unset). */
  datatype Resolution =
    | ToolResolution(width: int, height: int)
    | FormatResolution(prefWidth: Option<real>, prefHeight: Option<real>)

  /** A `FusionRenderInstance`, with the fields the collector sets that are
      not the same constant for every instance. */
  datatype RenderInstance = RenderInstance(
    tool: Tool,
    productType: string,
    families: seq<string>,
    version: Option<Value>,
    source: string,
    title: string,
    productName: string,
    folderPath: string,
    task: string,
    resolution: Resolution,
    pixelAspect: real,
    review: bool,
    frameStart: int,
    frameEnd: int,
    handleStart: int,
    handleEnd: int,
    frameStartHandle: int,
    frameEndHandle: int,
    fps: Option<real>,
    appVersion: Value,
    publishAttributes: map<string, Value>,
    projectEntity: Option<Value>,
    farm: bool,
    deadline: Option<Value>)

  /** Why `get_instances` stops: a missing `AspectX`/`AspectY` preference
      (`KeyError`), an `AspectY` of zero (`ZeroDivisionError`), or the
      probe's `TypeError`, which the `except ValueError` does not catch. */
  datatype CollectError = MissingAspect(key: string) | ZeroAspectY | ProbeTypeError

  /** `inst.data.get("active", True)`, as a truth value. */
  predicate IsActive(inst: SourceInstance) {
    inst.active.None? || Truthy(inst.active.value)
  }

  /** The instances the collector turns into render instances. */
  predicate Selected(inst: SourceInstance) {
    IsActive(inst) && inst.productType in ["render", "image"]
  }

  /** `list.append(x)` guarded by `x not in list`. */
  function AddAbsent(s: seq<string>, x: string): seq<string> {
    if x in s then s else s + [x]
  }

  /** The families of a render instance with render target `target`:
      `render.<target>` is added when absent; the farm target also makes
      sure of `render.farm` and drops one `review` entry. */
  function RenderFamilies(families: seq<string>, target: string): seq<string> {
    var withTarget := AddAbsent(families, "render." + target);
    if target == "farm" then RemoveFirst(AddAbsent(withTarget, "render.farm"), "review")
    else withTarget
  }

  /** Each entry of the families keeps its count, except that
      `render.<target>` gains one when it was missing and, on the farm, one
      `review` entry is dropped when there is one. */
  lemma RenderFamiliesCount(families: seq<string>, target: string, x: string)
    ensures multiset(RenderFamilies(families, target))[x] ==
      multiset(families)[x]
      + (if x == "render." + target && x !in families then 1 else 0)
      - (if target == "farm" && x == "review" && x in families then 1 else 0)
  {
    var rt := "render." + target;
    var withTarget := AddAbsent(families, rt);
    AddAbsentCount(families, rt, x);
    if target == "farm" {
      assert rt == "render.farm";
      AddAbsentCount(families, rt, "review");
      assert rt != "review" by {
        assert rt[0] == 'r' && rt[1] == 'e' && rt[2] == 'n';
      }
      assert rt in withTarget;
      RemoveFirstCount(withTarget, "review");
      assert multiset(withTarget)["review"] == multiset(families)["review"];
    }
  }

  lemma AddAbsentCount(s: seq<string>, y: string, x: string)
    ensures multiset(AddAbsent(s, y))[x] == multiset(s)[x] + (if x == y && x !in s then 1 else 0)
  {
    if y !in s {
      assert multiset(s + [y]) == multiset(s) + multiset{y};
    }
  }

  /** `families` without a repeated entry. */
  ghost predicate Distinct(s: seq<string>) {
    forall x :: multiset(s)[x] <= 1
  }

  /** The render-target family ends up in the list exactly once, repeated
      entries are never introduced, and on the farm no `review` entry is
      left when there was at most one. */
  lemma RenderFamiliesNoDuplicates(families: seq<string>, target: string)
    requires Distinct(families)
    ensures Distinct(RenderFamilies(families, target))
    ensures multiset(RenderFamilies(families, target))["render." + target] == 1
    ensures target == "farm" ==> "review" !in RenderFamilies(families, target)
  {
    var r := RenderFamilies(families, target);
    forall x
      ensures multiset(r)[x] <= 1
    {
      RenderFamiliesCount(families, target, x);
    }
    RenderFamiliesCount(families, target, "render." + target);
    if target == "farm" {
      RenderFamiliesCount(families, target, "review");
    }
  }

  /** One selected instance, given what the probe answered for its saver at
      `frameStart`. The comp's `AspectX` and `AspectY` were read before the
      loop. */
  function CollectOne(inst: SourceInstance, probed: Result<(int, int), FusionLib.ProbeError>,
                      prefs: map<string, real>, ctx: CollectContext): Result<RenderInstance, CollectError>
    requires "AspectX" in prefs && "AspectY" in prefs
  {
    if probed == Failure(FusionLib.TypeError) then Failure(ProbeTypeError)
    else if prefs["AspectY"] == 0.0 then Failure(ZeroAspectY)
    else
      var resolution := if probed.Success? then ToolResolution(probed.value.0, probed.value.1)
                        else FormatResolution(FusionLib.Lookup(prefs, "Width"), FusionLib.Lookup(prefs, "Height"));
      var farm := inst.renderTarget == "farm";
      Success(RenderInstance(
        inst.tool, inst.productType, RenderFamilies(inst.families, inst.renderTarget),
        ctx.version, ctx.currentFile, inst.title, inst.productName, inst.folderPath, inst.task,
        resolution, prefs["AspectX"] / prefs["AspectY"], "review" in inst.families,
        inst.frameStart, inst.frameEnd, inst.handleStart, inst.handleEnd,
        inst.frameStartHandle, inst.frameEndHandle,
        FusionLib.Lookup(prefs, "Rate"), ctx.appVersion, inst.publishAttributes,
        if inst.renderTarget in {"local", "frames"} then Some(ctx.projectEntity) else None,
        farm, if farm then inst.deadline else None))
  }

  /** What one selected instance yields: the probe's `TypeError` and a zero
      `AspectY` stop the loop; otherwise the render instance carries the
      instance's product, frame range and saver, the context's file and
      version, the probed resolution or else the frame-format one, the comp's
      pixel aspect and rate, the render-target families, `review` as it was
      before the farm dropped it, the project entity for the local and
      frames targets, and the farm flag and deadline for the farm target. */
  lemma CollectOneBuilds(inst: SourceInstance, probed: Result<(int, int), FusionLib.ProbeError>,
                         prefs: map<string, real>, ctx: CollectContext)
    requires "AspectX" in prefs && "AspectY" in prefs
    ensures probed == Failure(FusionLib.TypeError) ==> CollectOne(inst, probed, prefs, ctx) == Failure(ProbeTypeError)
    ensures probed != Failure(FusionLib.TypeError) && prefs["AspectY"] == 0.0 ==> CollectOne(inst, probed, prefs, ctx) == Failure(ZeroAspectY)
    ensures CollectOne(inst, probed, prefs, ctx).Success? ==> probed != Failure(FusionLib.TypeError) && prefs["AspectY"] != 0.0
    ensures CollectOne(inst, probed, prefs, ctx).Success? ==>
      var ri := CollectOne(inst, probed, prefs, ctx).value;
      ri.tool == inst.tool && ri.productType == inst.productType && ri.productName == inst.productName &&
      ri.source == ctx.currentFile && ri.version == ctx.version && ri.appVersion == ctx.appVersion &&
      ri.resolution == (if probed.Success? then ToolResolution(probed.value.0, probed.value.1)
                        else FormatResolution(FusionLib.Lookup(prefs, "Width"), FusionLib.Lookup(prefs, "Height"))) &&
      ri.pixelAspect == prefs["AspectX"] / prefs["AspectY"] &&
      ri.fps == FusionLib.Lookup(prefs, "Rate") &&
      ri.frameStart == inst.frameStart && ri.frameEnd == inst.frameEnd &&
      ri.handleStart == inst.handleStart && ri.handleEnd == inst.handleEnd &&
      ri.frameStartHandle == inst.frameStartHandle && ri.frameEndHandle == inst.frameEndHandle &&
      ri.families == RenderFamilies(inst.families, inst.renderTarget) &&
      ri.review == ("review" in inst.families) &&
      (ri.projectEntity.Some? <==> inst.renderTarget in {"local", "frames"}) &&
      (ri.projectEntity.Some? ==> ri.projectEntity.value == ctx.projectEntity) &&
      (ri.farm <==> inst.renderTarget == "farm") &&
      ri.deadline == (if inst.renderTarget == "farm" then inst.deadline else None)
  {
  }

  /** The probe's answer for an instance's saver at the instance's
      `frameStart`; `evalAt(tool)(frame)` is the host's evaluation of an
      expression on that tool at that frame. */
  function ProbeOf(inst: SourceInstance, evalAt: Tool -> int -> string -> Value): Result<(int, int), FusionLib.ProbeError> {
    FusionLib.ProbedResolution(evalAt(inst.tool)(inst.frameStart))
  }

  /** The outcome of the loop over the context, and how many probes ran. */
  datatype Collection = Collection(result: Result<seq<RenderInstance>, CollectError>, probes: nat)

  /** One turn of the loop of `get_instances`: an unselected instance is
      skipped; a selected one is probed and its render instance appended, or
      its error ends the collection. */
  function CollectStep(c: Collection, inst: SourceInstance, prefs: map<string, real>, ctx: CollectContext,
                       evalAt: Tool -> int -> string -> Value): Collection
    requires "AspectX" in prefs && "AspectY" in prefs
  {
    if c.result.Failure? || !Selected(inst) then c
    else
      match CollectOne(inst, ProbeOf(inst, evalAt), prefs, ctx)
      case Failure(e) => Collection(Failure(e), c.probes + 1)
      case Success(ri) => Collection(Success(c.result.value + [ri]), c.probes + 1)
  }

  /** The loop of `get_instances` over `insts`, stopping at the first error. */
  function CollectFrom(insts: seq<SourceInstance>, prefs: map<string, real>, ctx: CollectContext,
                       evalAt: Tool -> int -> string -> Value): Collection
    requires "AspectX" in prefs && "AspectY" in prefs
    decreases |insts|
  {
    if insts == [] then Collection(Success([]), 0)
    else CollectStep(CollectFrom(insts[..|insts| - 1], prefs, ctx, evalAt), insts[|insts| - 1], prefs, ctx, evalAt)
  }

  /** The selected instances, in context order. */
  function SelectedOf(insts: seq<SourceInstance>): (s: seq<SourceInstance>)
    ensures forall k :: 0 <= k < |s| ==> Selected(s[k]) && s[k] in insts
    decreases |insts|
  {
    if insts == [] then []
    else SelectedOf(insts[..|insts| - 1]) + (if Selected(insts[|insts| - 1]) then [insts[|insts| - 1]] else [])
  }

  /** A successful collection holds one render instance per selected
      instance, in context order, each made from that instance; exactly the
      selected instances were probed. */
  lemma {:induction false} CollectedFollowSelection(insts: seq<SourceInstance>, prefs: map<string, real>,
                                                    ctx: CollectContext, evalAt: Tool -> int -> string -> Value)
    requires "AspectX" in prefs && "AspectY" in prefs
    ensures var c := CollectFrom(insts, prefs, ctx, evalAt);
      c.result.Success? ==>
        |c.result.value| == |SelectedOf(insts)| == c.probes &&
        forall k :: 0 <= k < |c.result.value| ==>
          CollectOne(SelectedOf(insts)[k], ProbeOf(SelectedOf(insts)[k], evalAt), prefs, ctx)
            == Success(c.result.value[k])
    decreases |insts|
  {
    if insts != [] {
      CollectedFollowSelection(insts[..|insts| - 1], prefs, ctx, evalAt);
    }
  }

  /** The host calls of one probe. */
  const ProbeCalls: seq<HostCall> := [HostCall.Lock, HostCall.StartUndo("Read resolution"),
                                      HostCall.Unlock, HostCall.EndUndo(false)]

  /** A call log after `k` more probes. */
  function AfterProbes(calls: seq<HostCall>, k: nat): (log: seq<HostCall>)
    ensures |log| == |calls| + 4 * k
  {
    if k == 0 then calls else AfterProbes(calls, k - 1) + ProbeCalls
  }

  /** `get_instances(context)`: the frame-format preferences are read first
      (a missing aspect stops it before any instance); then each selected
      instance is probed and turned into a render instance, in order, until
      one fails. The saver is assumed to live in the current comp, so every
      probe's lock and undo calls land on `comp`. */
  method GetInstances(context: seq<SourceInstance>, comp: Comp, ctx: CollectContext,
                      evalAt: Tool -> int -> string -> Value)
    returns (r: Result<seq<RenderInstance>, CollectError>)
    modifies comp`calls, set inst | inst in context :: inst.tool.comments
    ensures "AspectX" !in comp.frameFormat ==> r == Failure(MissingAspect("AspectX")) && comp.calls == old(comp.calls)
    ensures "AspectX" in comp.frameFormat && "AspectY" !in comp.frameFormat ==>
      r == Failure(MissingAspect("AspectY")) && comp.calls == old(comp.calls)
    ensures "AspectX" in comp.frameFormat && "AspectY" in comp.frameFormat ==>
      r == CollectFrom(context, comp.frameFormat, ctx, evalAt).result &&
      comp.calls == AfterProbes(old(comp.calls), CollectFrom(context, comp.frameFormat, ctx, evalAt).probes)
  {
    var prefs := comp.frameFormat;
    if "AspectX" !in prefs {
      return Failure(MissingAspect("AspectX"));
    }
    if "AspectY" !in prefs {
      return Failure(MissingAspect("AspectY"));
    }
    r := CollectAll(context, comp, prefs, ctx, evalAt);
  }

  /** The loop of `get_instances` once the aspect preferences are read. */
  method CollectAll(context: seq<SourceInstance>, comp: Comp, prefs: map<string, real>, ctx: CollectContext,
                    evalAt: Tool -> int -> string -> Value)
    returns (r: Result<seq<RenderInstance>, CollectError>)
    requires "AspectX" in prefs && "AspectY" in prefs
    modifies comp`calls, set inst | inst in context :: inst.tool.comments
    ensures r == CollectFrom(context, prefs, ctx, evalAt).result
    ensures comp.calls == AfterProbes(old(comp.calls), CollectFrom(context, prefs, ctx, evalAt).probes)
  {
    var instances: seq<RenderInstance> := [];
    ghost var probes: nat := 0;
    var n := 0;
    while n < |context|
      invariant 0 <= n <= |context|
      invariant CollectFrom(context[..n], prefs, ctx, evalAt) == Collection(Success(instances), probes)
      invariant comp.calls == AfterProbes(old(comp.calls), probes)
    {
      assert context[n] in context;
      ghost var c := Collection(Success(instances), probes);
      var failed;
      instances, probes, failed := CollectNext(context[n], comp, prefs, ctx, evalAt, instances, probes);
      CollectAdvance(context, n, c, prefs, ctx, evalAt);
      if failed.Some? {
        return Failure(failed.value);
      }
      n := n + 1;
    }
    assert context[..n] == context;
    r := Success(instances);
  }

  /** One turn of the loop of `get_instances`, at `inst`, after `probes`
      probes have collected `instances`. */
  method CollectNext(inst: SourceInstance, comp: Comp, prefs: map<string, real>, ctx: CollectContext,
                     evalAt: Tool -> int -> string -> Value,
                     instances: seq<RenderInstance>, ghost probes: nat)
    returns (instances': seq<RenderInstance>, ghost probes': nat, failed: Option<CollectError>)
    requires "AspectX" in prefs && "AspectY" in prefs
    modifies comp`calls, inst.tool.comments
    ensures CollectStep(Collection(Success(instances), probes), inst, prefs, ctx, evalAt) ==
      if failed.None? then Collection(Success(instances'), probes') else Collection(Failure(failed.value), probes')
    ensures comp.calls == old(comp.calls) + if Selected(inst) then ProbeCalls else []
    ensures probes' == probes + if Selected(inst) then 1 else 0
  {
    instances', probes', failed := instances, probes, None;
    if Selected(inst) {
      var one := CollectSelected(inst, comp, prefs, ctx, evalAt);
      probes' := probes + 1;
      if one.Failure? {
        failed := Some(one.error);
      } else {
        instances' := instances + [one.value];
      }
    }
  }

  /** The probe of one selected instance and the render instance made from
      it. */
  method CollectSelected(inst: SourceInstance, comp: Comp, prefs: map<string, real>, ctx: CollectContext,
                         evalAt: Tool -> int -> string -> Value)
    returns (one: Result<RenderInstance, CollectError>)
    requires "AspectX" in prefs && "AspectY" in prefs
    modifies comp`calls, inst.tool.comments
    ensures one == CollectOne(inst, ProbeOf(inst, evalAt), prefs, ctx)
    ensures comp.calls == old(comp.calls) + ProbeCalls
  {
    var probed := FusionLib.GetToolResolution(inst.tool, comp, evalAt(inst.tool)(inst.frameStart));
    one := CollectOne(inst, probed, prefs, ctx);
  }

  /** The loop of `get_instances` one instance further. */
  lemma CollectFromSnoc(done: seq<SourceInstance>, inst: SourceInstance, prefs: map<string, real>,
                        ctx: CollectContext, evalAt: Tool -> int -> string -> Value)
    requires "AspectX" in prefs && "AspectY" in prefs
    ensures CollectFrom(done + [inst], prefs, ctx, evalAt) == CollectStep(CollectFrom(done, prefs, ctx, evalAt), inst, prefs, ctx, evalAt)
  {
    assert (done + [inst])[..|done|] == done;
  }

  /** After the turn at `context[n]` the collection is the one of
      `context[..n + 1]`, and a failure there is the outcome of the whole
      context. */
  lemma CollectAdvance(context: seq<SourceInstance>, n: nat, c: Collection, prefs: map<string, real>,
                       ctx: CollectContext, evalAt: Tool -> int -> string -> Value)
    requires "AspectX" in prefs && "AspectY" in prefs
    requires n < |context| && CollectFrom(context[..n], prefs, ctx, evalAt) == c
    ensures CollectFrom(context[..n + 1], prefs, ctx, evalAt) == CollectStep(c, context[n], prefs, ctx, evalAt)
    ensures CollectStep(c, context[n], prefs, ctx, evalAt).result.Failure? ==>
      CollectFrom(context, prefs, ctx, evalAt) == CollectStep(c, context[n], prefs, ctx, evalAt)
  {
    assert context[..n + 1] == context[..n] + [context[n]];
    CollectFromSnoc(context[..n], context[n], prefs, ctx, evalAt);
    if CollectStep(c, context[n], prefs, ctx, evalAt).result.Failure? {
      assert context[..n + 1] + context[n + 1..] == context;
      FailureSticks(context[..n + 1], context[n + 1..], prefs, ctx, evalAt);
    }
  }

  /** Once the loop has failed, later instances change nothing. */
  lemma {:induction false} FailureSticks(done: seq<SourceInstance>, rest: seq<SourceInstance>,
                                         prefs: map<string, real>, ctx: CollectContext,
                                         evalAt: Tool -> int -> string -> Value)
    requires "AspectX" in prefs && "AspectY" in prefs
    requires CollectFrom(done, prefs, ctx, evalAt).result.Failure?
    ensures CollectFrom(done + rest, prefs, ctx, evalAt) == CollectFrom(done, prefs, ctx, evalAt)
    decreases |rest|
  {
    if rest != [] {
      var init := rest[..|rest| - 1];
      FailureSticks(done, init, prefs, ctx, evalAt);
      assert (done + rest)[..|done + rest| - 1] == done + init;
    } else {
      assert done + rest == done;
    }
  }

  // ---------------------------------------------------------------------
  // get_expected_files

  /** One expected file: `os.path.join(output_dir, f"{head}{str(frame).zfill(padding)}{ext}")`. */
  function FramePath(outputDir: string, head: string, padding: nat, ext: string, frame: int): string {
    Paths.Join2(outputDir, head + Strings.PadFrame(frame, padding) + ext)
  }

  /** `f(start), f(start + 1), ...`: one value per frame of `count` frames
      from `start` on, in frame order. */
  function PerFrame<T>(f: int -> T, start: int, count: nat): (r: seq<T>)
    ensures |r| == count
  {
    if count == 0 then [] else PerFrame(f, start, count - 1) + [f(start + count - 1)]
  }

  /** The `k`-th value is the one of frame `start + k`. */
  lemma {:induction false} PerFrameAt<T>(f: int -> T, start: int, count: nat, k: nat)
    requires k < count
    ensures PerFrame(f, start, count)[k] == f(start + k)
  {
    if k < count - 1 {
      PerFrameAt(f, start, count - 1, k);
    }
  }

  /** The expected files of `count` frames from `start` on, in frame order. */
  function ExpectedPaths(outputDir: string, head: string, padding: nat, ext: string, start: int, count: nat): seq<string> {
    PerFrame(frame => FramePath(outputDir, head, padding, ext, frame), start, count)
  }

  /** The `k`-th expected file is the one of frame `start + k`. */
  lemma ExpectedPathAt(outputDir: string, head: string, padding: nat, ext: string,
                       start: int, count: nat, k: nat)
    requires k < count
    ensures |ExpectedPaths(outputDir, head, padding, ext, start, count)| == count
    ensures ExpectedPaths(outputDir, head, padding, ext, start, count)[k] == FramePath(outputDir, head, padding, ext, start + k)
  {
    PerFrameAt(frame => FramePath(outputDir, head, padding, ext, frame), start, count, k);
  }

  /** The number of frames of `range(start, end + 1)`. */
  function FrameCount(start: int, end: int): (n: nat)
    ensures start + n == if start <= end then end + 1 else start
  {
    if start <= end then end - start + 1 else 0
  }

  /** `get_expected_files(render_instance)`: one path per frame of
      `[frameStart - handleStart, frameEnd + handleEnd]` (none when the start
      is past the end), in increasing frame order, in the directory of the
      mapped `Clip` path and named after its file name's head, padding and
      extension. The instance's `outputDir` (that directory) is returned
      beside the list. `mapPath` is the comp's `MapPath`; a saver's `Clip`
      input holds a path. */
  method GetExpectedFiles(inst: RenderInstance, mapPath: string -> string)
    returns (files: seq<string>, outputDir: string)
    requires Clip in inst.tool.inputs && inst.tool.inputs[Clip].Str?
    ensures var path := mapPath(inst.tool.inputs[Clip].s);
      var parts := FusionLib.GetFramePath(Paths.Basename(path));
      outputDir == Paths.Dirname(path) &&
      files == ExpectedPaths(outputDir, parts.0, parts.1, parts.2, inst.frameStart - inst.handleStart,
                             FrameCount(inst.frameStart - inst.handleStart, inst.frameEnd + inst.handleEnd))
  {
    var path := mapPath(inst.tool.inputs[Clip].s);
    outputDir := Paths.Dirname(path);
    var parts := FusionLib.GetFramePath(Paths.Basename(path));
    files := FramePaths(outputDir, parts.0, parts.1, parts.2,
                        inst.frameStart - inst.handleStart, inst.frameEnd + inst.handleEnd);
  }

  /** The frame loop of `get_expected_files`: one path per frame from `start`
      to `end` inclusive. */
  method FramePaths(outputDir: string, head: string, padding: nat, ext: string, start: int, end: int)
    returns (files: seq<string>)
    ensures files == ExpectedPaths(outputDir, head, padding, ext, start, FrameCount(start, end))
  {
    files := [];
    var frame := start;
    while frame <= end
      invariant start <= frame
      invariant frame <= end + 1 || frame == start
      invariant files == ExpectedPaths(outputDir, head, padding, ext, start, frame - start)
    {
      files := files + [FramePath(outputDir, head, padding, ext, frame)];
      frame := frame + 1;
    }
  }

  /** What a name's parts look like when `get_frame_path` found them in a
      newline-free file name with an extension. */
  ghost predicate NameParts(head: string, padding: nat, ext: string) {
    padding >= 1 && '\n' !in head && '/' !in head &&
    (head == [] || !Strings.IsDigit(head[|head| - 1])) &&
    |ext| > 0 && ext[0] == '.' && '/' !in ext && '.' !in ext[1..]
  }

  /** What `get_frame_path` finds in the file name of a newline-free path
      with an extension: a padding of at least one, a head without separator
      or newline that does not end in a digit, and a dotted extension. */
  lemma FileNameParts(path: string)
    requires '\n' !in path && Paths.Splitext(Paths.Basename(path)).1 != []
    ensures var parts := FusionLib.GetFramePath(Paths.Basename(path));
      NameParts(parts.0, parts.1, parts.2)
  {
    var base := Paths.Basename(path);
    assert '\n' !in base by {
      forall i | 0 <= i < |base| ensures base[i] != '\n' {
        assert base[i] == path[|path| - |base| + i];
      }
    }
    HeadOfName(base);
    var head := FusionLib.GetFramePath(base).0;
    assert '/' !in head && '\n' !in head by {
      forall i | 0 <= i < |head| ensures head[i] != '/' && head[i] != '\n' {
        assert head[i] == base[i];
      }
    }
  }

  /** In a newline-free name the head `get_frame_path` finds starts the name
      and does not end in a digit, and the padding is at least one. */
  lemma HeadOfName(base: string)
    requires '\n' !in base
    ensures var parts := FusionLib.GetFramePath(base);
      parts.1 >= 1 && |parts.0| <= |base| && parts.0 == base[..|parts.0|] &&
      (parts.0 == [] || !Strings.IsDigit(parts.0[|parts.0| - 1])) && parts.2 == Paths.Splitext(base).1
  {
    var stem := Paths.Splitext(base).0;
    assert '\n' !in stem by {
      forall i | 0 <= i < |stem| ensures stem[i] != '\n' {
        assert stem[i] == base[i];
      }
    }
    FusionLib.DigitGroupWithoutNewline(stem);
    HeadStartsName(base);
    HeadEndsWithoutDigit(base);
  }

  /** The head is a prefix of the name, and the extension the one of
      `splitext`. */
  lemma HeadStartsName(base: string)
    requires var stem := Paths.Splitext(base).0;
      FusionLib.FrameDigitGroup(stem) == if FusionLib.TrailingDigits(stem) > 0 then Some(FusionLib.TrailingDigits(stem)) else None
    ensures var parts := FusionLib.GetFramePath(base);
      parts.1 >= 1 && |parts.0| <= |base| && parts.0 == base[..|parts.0|] && parts.2 == Paths.Splitext(base).1
  {
    var stem := Paths.Splitext(base).0;
    assert stem == base[..|stem|];
  }

  /** The head does not end in a digit. */
  lemma HeadEndsWithoutDigit(base: string)
    requires var stem := Paths.Splitext(base).0;
      FusionLib.FrameDigitGroup(stem) == if FusionLib.TrailingDigits(stem) > 0 then Some(FusionLib.TrailingDigits(stem)) else None
    ensures var head := FusionLib.GetFramePath(base).0;
      head == [] || !Strings.IsDigit(head[|head| - 1])
  {
  }

  /** The file name of an expected file is the head, the padded frame and
      the extension. */
  lemma FrameFileName(outputDir: string, head: string, padding: nat, ext: string, frame: int)
    requires NameParts(head, padding, ext)
    requires 0 <= frame < Strings.Pow10(padding)
    ensures Paths.Basename(FramePath(outputDir, head, padding, ext, frame)) == head + Strings.PadFrame(frame, padding) + ext
  {
    var digits := Strings.PadFrame(frame, padding);
    Strings.PadFrameExact(frame, padding);
    Strings.DigitsExclude(digits, '/');
    Paths.BasenameJoin(outputDir, head + digits + ext);
  }

  /** An expected file's name reads back, through `get_frame_path`, as the
      head, padding and extension it was made from, and its frame field as
      the frame, whenever the frame fits the padding: the names a render
      writes are the names the publish later parses. */
  lemma ExpectedFileReadsBack(outputDir: string, head: string, padding: nat, ext: string, frame: int)
    requires NameParts(head, padding, ext)
    requires 0 <= frame < Strings.Pow10(padding)
    ensures var digits := Strings.PadFrame(frame, padding);
      Paths.Basename(FramePath(outputDir, head, padding, ext, frame)) == head + digits + ext &&
      FusionLib.GetFramePath(head + digits + ext) == (head, padding, ext) &&
      |digits| == padding && Strings.AllDigits(digits) && Strings.ParseDigits(digits) == frame
  {
    Strings.PadFrameExact(frame, padding);
    FusionLib.GetFramePathRoundTrip(head, Strings.PadFrame(frame, padding), ext);
    FrameFileName(outputDir, head, padding, ext, frame);
  }

  // ---------------------------------------------------------------------
  // _update_for_frames, post_collecting_action

  /** `[os.path.basename(f) for f in files]` */
  function Basenames(files: seq<string>): (names: seq<string>)
    ensures |names| == |files|
    ensures forall k :: 0 <= k < |files| ==> names[k] == Paths.Basename(files[k])
  {
    seq(|files|, k requires 0 <= k < |files| => Paths.Basename(files[k]))
  }

  /** The representation `_update_for_frames` builds from the expected
      files: the padding and extension of the first file's name, the first
      frame with handles printed with that padding, all the file names, the
      first file's directory as staging directory, and the `review` tag
      exactly when the instance is reviewed. */
  function FramesRepresentation(files: seq<string>, start: int, review: bool): (repre: Representation)
    requires |files| > 0
  {
    var (_, padding, ext) := FusionLib.GetFramePath(Paths.Basename(files[0]));
    Representation(Undotted(ext), Undotted(ext), Strings.PadFrame(start, padding),
                   FileList(Basenames(files)), Paths.Dirname(files[0]),
                   if review then Some(["review"]) else None)
  }

  /** The frames representation of the collector's own expected files names
      every file, carries the extension without its dot, and prints its
      first frame so that it reads back as the first frame with handles,
      whenever the frames fit the padding; it is tagged for review exactly
      when the instance is. */
  lemma FramesRepresentationOfExpected(outputDir: string, head: string, padding: nat, ext: string,
                                       start: int, count: nat, review: bool)
    requires NameParts(head, padding, ext)
    requires count >= 1 && 0 <= start && start + count <= Strings.Pow10(padding)
    ensures var repre := FramesRepresentation(ExpectedPaths(outputDir, head, padding, ext, start, count), start, review);
      repre.files.FileList? && |repre.files.names| == count &&
      (forall k :: 0 <= k < count ==> repre.files.names[k] == head + Strings.PadFrame(start + k, padding) + ext) &&
      repre.name == Undotted(ext) && repre.ext == Undotted(ext) &&
      Strings.AllDigits(repre.frameStart) && Strings.ParseDigits(repre.frameStart) == start &&
      (repre.tags.Some? <==> review)
  {
    var files := ExpectedPaths(outputDir, head, padding, ext, start, count);
    ExpectedNames(outputDir, head, padding, ext, start, count);
    ExpectedFileReadsBack(outputDir, head, padding, ext, start);
    ExpectedPathAt(outputDir, head, padding, ext, start, count, 0);
    assert Paths.Basename(files[0]) == head + Strings.PadFrame(start, padding) + ext;
    assert FramesRepresentation(files, start, review) ==
      Representation(Undotted(ext), Undotted(ext), Strings.PadFrame(start, padding),
                     FileList(Basenames(files)), Paths.Dirname(files[0]),
                     if review then Some(["review"]) else None);
  }

  /** The file names of the expected files: head, padded frame, extension. */
  lemma ExpectedNames(outputDir: string, head: string, padding: nat, ext: string, start: int, count: nat)
    requires NameParts(head, padding, ext)
    requires 0 <= start && start + count <= Strings.Pow10(padding)
    ensures var names := Basenames(ExpectedPaths(outputDir, head, padding, ext, start, count));
      |names| == count &&
      forall k :: 0 <= k < count ==> names[k] == head + Strings.PadFrame(start + k, padding) + ext
  {
    var names := Basenames(ExpectedPaths(outputDir, head, padding, ext, start, count));
    forall k | 0 <= k < count
      ensures names[k] == head + Strings.PadFrame(start + k, padding) + ext
    {
      ExpectedPathAt(outputDir, head, padding, ext, start, count, k);
      FrameFileName(outputDir, head, padding, ext, start + k);
    }
  }

  /** The frames representation of an instance with expected files. */
  function FramesOf(inst: PublishInstance): Representation
    requires |inst.expectedFiles| > 0
  {
    FramesRepresentation(inst.expectedFiles, inst.frameStart - inst.handleStart, inst.review)
  }

  /** `_update_for_frames(instance)`: appends the frames representation; with
      no expected file it stops at `expected_files[0]` (`IndexError`) before
      changing anything. The colorspace data the host adds is not part of
      this model. */
  method UpdateForFrames(inst: PublishInstance) returns (ok: bool)
    modifies inst`representations
    ensures ok <==> |inst.expectedFiles| > 0
    ensures !ok ==> inst.representations == old(inst.representations)
    ensures ok ==> inst.representations == Some(old(inst.representations).GetOr([]) + [FramesOf(inst)])
  {
    if |inst.expectedFiles| == 0 {
      return false;
    }
    var repre := FramesOf(inst);
    inst.AddRepresentation(repre);
    ok := true;
  }

  predicate RendersFrames(inst: PublishInstance) {
    "render.frames" in inst.families
  }

  /** A `render.frames` instance without expected files, on which
      `_update_for_frames` raises. */
  predicate Stops(inst: PublishInstance) {
    RendersFrames(inst) && |inst.expectedFiles| == 0
  }

  /** Where `post_collecting_action` stops: the first `render.frames`
      instance without expected files, or the end of the context. */
  function FirstFailure(context: seq<PublishInstance>): (f: nat)
    ensures f <= |context|
    ensures forall k :: 0 <= k < f ==> !Stops(context[k])
    ensures f < |context| ==> Stops(context[f])
  {
    FirstFailureFrom(context, 0)
  }

  /** The first stopping instance at or after `i`. */
  function FirstFailureFrom(context: seq<PublishInstance>, i: nat): (f: nat)
    requires i <= |context|
    ensures i <= f <= |context|
    ensures forall k :: i <= k < f ==> !Stops(context[k])
    ensures f < |context| ==> Stops(context[f])
    decreases |context| - i
  {
    if i == |context| || Stops(context[i]) then i
    else FirstFailureFrom(context, i + 1)
  }

  /** The representations of the context once the loop has handled its first
      `n` instances, `before` being what they were at the start. */
  ghost predicate HandledUpTo(context: seq<PublishInstance>, n: nat, before: seq<Option<seq<Representation>>>)
    requires |before| == |context| && n <= FirstFailure(context)
    reads context
  {
    forall k :: 0 <= k < |context| ==>
      context[k].representations ==
        if k < n && RendersFrames(context[k]) then Some(before[k].GetOr([]) + [FramesOf(context[k])])
        else before[k]
  }

  /** `post_collecting_action()`: every `render.frames` instance of the
      context, in order, gets its frames representation, until one without
      expected files stops the loop. A pyblish context holds each instance
      once. */
  method PostCollectingAction(context: seq<PublishInstance>) returns (ok: bool)
    requires forall i, j :: 0 <= i < j < |context| ==> context[i] != context[j]
    modifies set inst | inst in context :: inst`representations
    ensures ok <==> FirstFailure(context) == |context|
    ensures forall k :: 0 <= k < |context| ==>
      context[k].representations ==
        if k < FirstFailure(context) && RendersFrames(context[k])
        then Some(old(context[k].representations).GetOr([]) + [FramesOf(context[k])])
        else old(context[k].representations)
  {
    ghost var before := seq(|context|, k requires 0 <= k < |context| reads context => context[k].representations);
    var n := 0;
    ok := true;
    while n < |context| && ok
      invariant 0 <= n <= FirstFailure(context)
      invariant !ok ==> n == FirstFailure(context) < |context|
      invariant HandledUpTo(context, n, before)
      decreases |context| - n, ok
    {
      assert context[n] in context;
      ok := HandleNext(context, n, context[n], before);
      if ok {
        n := n + 1;
      }
    }
    forall k | 0 <= k < |context|
      ensures context[k].representations ==
        if k < FirstFailure(context) && RendersFrames(context[k])
        then Some(old(context[k].representations).GetOr([]) + [FramesOf(context[k])])
        else old(context[k].representations)
    {
      assert before[k] == old(context[k].representations);
    }
  }

  /** One turn of the loop of `post_collecting_action`, at `context[n]`. */
  method HandleNext(context: seq<PublishInstance>, n: nat, inst: PublishInstance,
                    ghost before: seq<Option<seq<Representation>>>)
    returns (done: bool)
    requires forall i, j :: 0 <= i < j < |context| ==> context[i] != context[j]
    requires |before| == |context| && n < |context| && n <= FirstFailure(context) && inst == context[n]
    requires HandledUpTo(context, n, before)
    modifies inst`representations
    ensures done <==> n < FirstFailure(context)
    ensures done ==> HandledUpTo(context, n + 1, before)
    ensures !done ==> n == FirstFailure(context) && HandledUpTo(context, n, before)
  {
    assert inst.representations == before[n];
    done := true;
    if RendersFrames(inst) {
      done := UpdateForFrames(inst);
    }
    if done {
      assert n < FirstFailure(context);
      assert inst.representations ==
        if RendersFrames(inst) then Some(before[n].GetOr([]) + [FramesOf(inst)]) else before[n];
      forall k | 0 <= k < |context|
        ensures context[k].representations ==
          if k < n + 1 && RendersFrames(context[k]) then Some(before[k].GetOr([]) + [FramesOf(context[k])])
          else before[k]
      {
        if k != n {
          assert context[k] != inst;
          assert old(context[k].representations ==
            if k < n && RendersFrames(context[k]) then Some(before[k].GetOr([]) + [FramesOf(context[k])])
            else before[k]);
          assert context[k].representations == old(context[k].representations);
        }
      }
    }
  }
}
