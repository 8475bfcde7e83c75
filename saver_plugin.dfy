/** The saver creator's base (`GenericCreateSaver`): how an instance's data is
    stored on its `Saver` tool under the `openpype` namespace and read back,
    when the tool is reconfigured and renamed, how pre-create values become
    creator attributes, how instances are removed, and the attribute
    definitions it offers. */
module FusionPlugin {
  import opened Wrappers
  import opened HostData
  import opened Host
  import opened Creation
  import Strings
  import FusionPipeline

  /** The instance ids of the pipeline core (`AYON_INSTANCE_ID`,
      `AVALON_INSTANCE_ID`). */
  const AyonInstanceId := "ayon.create.instance"
  const AvalonInstanceId := "pyblish.avalon.instance"

  /** The metadata namespace of saver instances. */
  const Namespace := "openpype"

  /** The class defaults: `instance_attributes` and `image_format`. */
  const InstanceAttributes: seq<string> := ["reviewable"]
  const ImageFormat := "exr"

  // ---------------------------------------------------------------------
  // Instance data as a Python dict: its (key, value) pairs in insertion
  // order; a lookup sees the last pair of a key (`EntryMap`).

  /** `d.pop(key, None)` as it leaves the dict: every pair of `key` gone,
      the others in order. */
  function Without(d: seq<(string, Value)>, key: string): (r: seq<(string, Value)>)
    ensures EntryMap(r) == EntryMap(d) - {key}
    ensures forall i :: 0 <= i < |r| ==> r[i].0 != key
    decreases |d|
  {
    if d == [] then []
    else
      var init, last := d[..|d| - 1], d[|d| - 1];
      var r := Without(init, key);
      if last.0 == key then r
      else
        assert (r + [last])[..|r + [last]| - 1] == r;
        r + [last]
  }

  /** What `data.pop(key, None)` returns. */
  function Pop(d: seq<(string, Value)>, key: string): Value {
    var m := EntryMap(d);
    if key in m then m[key] else Null
  }

  // ---------------------------------------------------------------------
  // _imprint

  /** The `active` value `_imprint` acts on: present and not None. */
  function ActiveGiven(data: seq<(string, Value)>): Option<Value> {
    var a := Pop(data, "active");
    if a == Null then None else Some(a)
  }

  /** The pairs `_imprint` stores: all but `instance_id` and `active`. */
  function ImprintEntries(data: seq<(string, Value)>): (r: seq<(string, Value)>)
    ensures EntryMap(r) == EntryMap(data) - {"instance_id", "active"}
  {
    Without(Without(data, "instance_id"), "active")
  }

  /** The pass-through flag after `_imprint`: `not active` when an active
      value was given, otherwise as it was. */
  function PassThroughAfter(passThrough: bool, data: seq<(string, Value)>): bool {
    match ActiveGiven(data)
    case Some(a) => !Truthy(a)
    case None => passThrough
  }

  /** `GenericCreateSaver._imprint(tool, data)`: the instance id is not stored
      (the tool's name stands for it); a given `active` sets the pass-through
      flag to its negation; every other pair is written as `openpype.<key>`,
      in order. */
  method Imprint(tool: Tool, data: seq<(string, Value)>)
    modifies tool`data, tool`writes, tool`passThrough
    ensures tool.passThrough == PassThroughAfter(old(tool.passThrough), data)
    ensures tool.data == SetAll(old(tool.data), Namespace, ImprintEntries(data))
    ensures tool.writes == old(tool.writes)
      + (match ActiveGiven(data) case Some(a) => [PassThroughWrite(!Truthy(a))] case None => [])
      + FusionPipeline.DataWrites(Namespace, ImprintEntries(data))
  {
    var rest := Without(data, "instance_id");
    var active := Pop(rest, "active");
    assert active == Pop(data, "active");
    rest := Without(rest, "active");
    if active != Null {
      tool.SetPassThrough(!Truthy(active));
    }
    FusionPipeline.SetEntries(tool, Namespace, rest);
  }

  // ---------------------------------------------------------------------
  // get_managed_tool_data

  /** A stored bag that belongs to the creator `identifier`. */
  predicate Managed(bag: map<string, Value>, identifier: string) {
    "creator_identifier" in bag && bag["creator_identifier"] == Str(identifier) &&
    "id" in bag && (bag["id"] == Str(AyonInstanceId) || bag["id"] == Str(AvalonInstanceId))
  }

  /** The store's `openpype` entry is a dictionary managed by `identifier`. */
  predicate ManagedStore(store: Value, identifier: string) {
    Get(store, [Namespace]).Some? && Get(store, [Namespace]).value.Dict? &&
    Managed(Get(store, [Namespace]).value.entries, identifier)
  }

  /** `get_managed_tool_data(tool)` on a tool's store, pass-through flag and
      name: the `openpype` bag of a managed tool, with `active` read from the
      pass-through flag and `instance_id` from the name; `None` otherwise. */
  function ManagedData(store: Value, passThrough: bool, name: string, identifier: string): (r: Option<map<string, Value>>)
    ensures r.Some? <==> ManagedStore(store, identifier)
    ensures r.Some? ==>
      "active" in r.value && r.value["active"] == Bool(!passThrough) &&
      "instance_id" in r.value && r.value["instance_id"] == Str(name)
    ensures r.Some? ==> var bag := Get(store, [Namespace]).value.entries;
      forall k :: k != "active" && k != "instance_id" ==>
        ((k in r.value <==> k in bag) && (k in bag ==> r.value[k] == bag[k]))
  {
    match Get(store, [Namespace])
    case Some(Dict(bag)) =>
      if Managed(bag, identifier) then Some(bag["active" := Bool(!passThrough)]["instance_id" := Str(name)])
      else None
    case _ => None
  }

  /** Reading back what `_imprint` stored: a tool imprinted with data of this
      creator is managed; every stored key reads back its value, `active`
      reads back as its truth value (a boolean unchanged), and
      `instance_id` is the tool's name. */
  lemma ImprintRoundTrip(store: Value, passThrough: bool, name: string, identifier: string,
                         data: seq<(string, Value)>)
    requires Managed(EntryMap(data), identifier)
    ensures var r := ManagedData(SetAll(store, Namespace, ImprintEntries(data)),
                                 PassThroughAfter(passThrough, data), name, identifier);
      r.Some? &&
      (forall k :: k in EntryMap(data) && k != "active" && k != "instance_id" ==>
         k in r.value && r.value[k] == EntryMap(data)[k]) &&
      (ActiveGiven(data).Some? ==> r.value["active"] == Bool(Truthy(ActiveGiven(data).value))) &&
      ("active" in EntryMap(data) && EntryMap(data)["active"].Bool? ==> r.value["active"] == EntryMap(data)["active"]) &&
      r.value["instance_id"] == Str(name)
  {
    var entries := ImprintEntries(data);
    assert "creator_identifier" in EntryMap(entries);
    assert entries != [];
    SetAllBag(store, Namespace, entries);
    SetAllTable(store, Namespace, entries);
    var bag := Bag(store, Namespace) + EntryMap(entries);
    assert Managed(bag, identifier);
  }

  // ---------------------------------------------------------------------
  // _update_tool_with_data

  /** `tool.GetData(path)` as the comparison sees it: None when absent. */
  function Stored(store: Value, path: seq<string>): Value {
    Get(store, path).GetOr(Null)
  }

  /** The data keys `_update_tool_with_data` compares, all present. */
  predicate HasComparedKeys(d: map<string, Value>) {
    "productName" in d && "task" in d && "folderPath" in d &&
    "creator_attributes" in d && d["creator_attributes"].Dict? &&
    "image_format" in d["creator_attributes"].entries
  }

  /** The condition of `_update_tool_with_data`: whether the product name,
      task, folder path or image format differs from what the tool stores.
      The comparisons run left to right and stop at the first difference;
      a missing key reached before that raises (`Failure(key)`). */
  function Reconfigure(store: Value, d: map<string, Value>): (r: Result<bool, string>)
    requires "productName" in d
    ensures r.Failure? ==> !HasComparedKeys(d)
    ensures HasComparedKeys(d) ==> r.Success?
    ensures r == Success(false) ==> (HasComparedKeys(d) &&
      Stored(store, [Namespace, "productName"]) == d["productName"] &&
      Stored(store, [Namespace, "task"]) == d["task"] &&
      Stored(store, [Namespace, "folderPath"]) == d["folderPath"] &&
      Stored(store, [Namespace, "creator_attributes", "image_format"]) == d["creator_attributes"].entries["image_format"])
    ensures HasComparedKeys(d) && Stored(store, [Namespace, "task"]) != d["task"] ==> r == Success(true)
  {
    if Stored(store, [Namespace, "productName"]) != d["productName"] then Success(true)
    else if "task" !in d then Failure("task")
    else if Stored(store, [Namespace, "task"]) != d["task"] then Success(true)
    else if "folderPath" !in d then Failure("folderPath")
    else if Stored(store, [Namespace, "folderPath"]) != d["folderPath"] then Success(true)
    else if "creator_attributes" !in d then Failure("creator_attributes")
    else if !d["creator_attributes"].Dict? || "image_format" !in d["creator_attributes"].entries then Failure("image_format")
    else Success(Stored(store, [Namespace, "creator_attributes", "image_format"]) != d["creator_attributes"].entries["image_format"])
  }

  /** After `_imprint`, reading `openpype.<key>...` follows the imprinted
      value of `key`. */
  lemma ReadImprinted(store: Value, data: seq<(string, Value)>, path: seq<string>)
    requires |path| >= 1 && path[0] in EntryMap(data) && path[0] != "active" && path[0] != "instance_id"
    ensures Get(SetAll(store, Namespace, ImprintEntries(data)), [Namespace] + path)
      == Get(EntryMap(data)[path[0]], path[1..])
  {
    var entries := ImprintEntries(data);
    assert path[0] in EntryMap(entries);
    SetAllBag(store, Namespace, entries);
    SetAllTable(store, Namespace, entries);
    GetConcat(SetAll(store, Namespace, entries), [Namespace], path);
  }

  /** Imprinting data and then updating the tool with the same data does not
      reconfigure the tool. */
  lemma UpdateAfterImprintKeeps(store: Value, data: seq<(string, Value)>)
    requires HasComparedKeys(EntryMap(data))
    ensures Reconfigure(SetAll(store, Namespace, ImprintEntries(data)), EntryMap(data)) == Success(false)
  {
    var after := SetAll(store, Namespace, ImprintEntries(data));
    var d := EntryMap(data);
    ReadImprinted(store, data, ["productName"]);
    assert [Namespace] + ["productName"] == [Namespace, "productName"];
    ReadImprinted(store, data, ["task"]);
    assert [Namespace] + ["task"] == [Namespace, "task"];
    ReadImprinted(store, data, ["folderPath"]);
    assert [Namespace] + ["folderPath"] == [Namespace, "folderPath"];
    ReadImprinted(store, data, ["creator_attributes", "image_format"]);
    assert [Namespace] + ["creator_attributes", "image_format"] == [Namespace, "creator_attributes", "image_format"];
    assert ["creator_attributes", "image_format"][1..] == ["image_format"];
    assert ["image_format"][1..] == [];
  }

  /** The placeholder `_configure_saver_tool` puts in the `{frame}` field:
      `frame_padding` zeros, which is how frame 0 prints at that padding. */
  function FramePlaceholder(padding: nat): (r: string)
    ensures |r| == padding
    ensures padding > 0 ==> r == Strings.PadFrame(0, padding)
  {
    assert Strings.IntToString(0) == "0";
    Strings.Zeros(padding)
  }

  /** The host steps of `_configure_saver_tool`: write the saver's clip (the
      rendered path the templates give, mapped by the host, `clipPath`),
      then rename the tool to the product name only when its name differs.
      The host may adjust other inputs when the clip is set (`effects`). */
  method ConfigureSaver(tool: Tool, productName: string, clipPath: string, effects: map<InputId, Value>)
    modifies tool`inputs, tool`writes, tool`name
    ensures tool.name == productName
    ensures tool.inputs == old(tool.inputs)[InputId.Clip := Str(clipPath)] + effects
    ensures tool.writes == old(tool.writes) + [InputWrite(InputId.Clip, Str(clipPath))]
      + (if old(tool.name) != productName then [NameWrite(productName)] else [])
  {
    tool.SetInput(InputId.Clip, Str(clipPath), effects);
    if tool.name != productName {
      tool.SetName(productName);
    }
  }

  /** `GenericCreateSaver._update_tool_with_data(tool, data)`: nothing without
      a product name; otherwise the saver is reconfigured exactly when the
      product name, task, folder path or image format differs from what the
      tool stores. A key missing from `data` that the comparison reaches is
      an error, raised before any change. */
  method UpdateToolWithData(tool: Tool, data: seq<(string, Value)>, clipPath: string, effects: map<InputId, Value>)
    returns (error: Option<string>)
    requires "productName" in EntryMap(data) ==> EntryMap(data)["productName"].Str?
    modifies tool`inputs, tool`writes, tool`name
    ensures "productName" !in EntryMap(data) ==> error == None && unchanged(tool)
    ensures "productName" in EntryMap(data) ==>
      var productName := EntryMap(data)["productName"].s;
      match Reconfigure(old(tool.data), EntryMap(data))
      case Failure(key) => error == Some(key) && unchanged(tool)
      case Success(false) => error == None && unchanged(tool)
      case Success(true) => (error == None &&
        tool.name == productName &&
        tool.inputs == old(tool.inputs)[InputId.Clip := Str(clipPath)] + effects &&
        tool.writes == old(tool.writes) + [InputWrite(InputId.Clip, Str(clipPath))]
          + (if old(tool.name) != productName then [NameWrite(productName)] else []))
  {
    var d := EntryMap(data);
    if "productName" !in d {
      return None;
    }
    var c := Reconfigure(tool.data, d);
    match c
    case Failure(key) =>
      error := Some(key);
    case Success(differs) =>
      error := None;
      if differs {
        ConfigureSaver(tool, d["productName"].s, clipPath, effects);
      }
  }

  // ---------------------------------------------------------------------
  // pass_pre_attributes_to_instance / remove_instances

  /** `pass_pre_attributes_to_instance(instance_data, pre_create_data)`: the
      instance data with `creator_attributes` replaced by a copy of every
      pre-create value. */
  method PassPreAttributes(instanceData: map<string, Value>, preCreate: map<string, Value>)
    returns (r: map<string, Value>)
    ensures "creator_attributes" in r && r["creator_attributes"] == Dict(preCreate)
    ensures forall k :: k in instanceData && k != "creator_attributes" ==> k in r && r[k] == instanceData[k]
    ensures r.Keys == instanceData.Keys + {"creator_attributes"}
  {
    var attrs: map<string, Value> := map[];
    var keys := preCreate.Keys;
    while keys != {}
      invariant keys <= preCreate.Keys
      invariant attrs.Keys == preCreate.Keys - keys
      invariant forall k :: k in attrs ==> attrs[k] == preCreate[k]
      decreases keys
    {
      var k :| k in keys;
      attrs := attrs[k := preCreate[k]];
      keys := keys - {k};
    }
    assert attrs == preCreate;
    r := instanceData["creator_attributes" := Dict(attrs)];
  }

  /** Each instance's transient tool reference. */
  function ToolOptions(instances: seq<CreatedInstance>): (r: seq<Option<Tool>>)
    reads instances
    ensures |r| == |instances| && forall i :: 0 <= i < |instances| ==> r[i] == instances[i].tool
  {
    seq(|instances|, i reads instances requires 0 <= i < |instances| => instances[i].tool)
  }

  /** The tools of the instances that have one, in order. */
  function PresentTools(instances: seq<CreatedInstance>): seq<Tool>
    reads instances
  {
    FusionPipeline.Somes(ToolOptions(instances))
  }

  /** A tool is deleted by `remove_instances` exactly when one of the
      instances refers to it. */
  lemma PresentToolsExactly(instances: seq<CreatedInstance>, t: Tool)
    ensures t in PresentTools(instances) <==> exists i :: 0 <= i < |instances| && instances[i].tool == Some(t)
  {
    var opts := ToolOptions(instances);
    FusionPipeline.SomesExactly(opts, t);
    if Some(t) in opts {
      var i :| 0 <= i < |opts| && opts[i] == Some(t);
      assert instances[i].tool == Some(t);
    }
  }

  /** The `Delete` calls for a list of tools. */
  function DeleteCalls(tools: seq<Tool>): (r: seq<HostCall>)
    reads tools
    ensures |r| == |tools|
    ensures forall i :: 0 <= i < |tools| ==> r[i] == DeleteCall(tools[i].name)
    decreases |tools|
  {
    if tools == [] then [] else DeleteCalls(tools[..|tools| - 1]) + [DeleteCall(tools[|tools| - 1].name)]
  }

  /** `remove_instances(instances)`: each instance's tool, when it has one,
      is deleted from the comp, and every instance leaves the create context,
      in order. */
  method RemoveInstances(context: CreateContext, comp: Comp, instances: seq<CreatedInstance>)
    modifies context`instances, comp`tools, comp`calls
    ensures context.instances == RemovedAll(old(context.instances), instances)
    ensures comp.tools == RemovedAll(old(comp.tools), PresentTools(instances))
    ensures comp.calls == old(comp.calls) + DeleteCalls(PresentTools(instances))
  {
    ghost var instances0, tools0, calls0 := context.instances, comp.tools, comp.calls;
    ghost var opts := ToolOptions(instances);
    for n := 0 to |instances|
      invariant context.instances == RemovedAll(instances0, instances[..n])
      invariant comp.tools == RemovedAll(tools0, FusionPipeline.Somes(opts[..n]))
      invariant comp.calls == calls0 + DeleteCalls(FusionPipeline.Somes(opts[..n]))
    {
      RemoveNext(context, comp, instances, n, opts, instances0, tools0, calls0);
    }
    assert instances[..|instances|] == instances;
    assert opts[..|instances|] == opts;
  }

  /** Iteration `n` of `remove_instances`, stated against what the earlier
      iterations removed and deleted. */
  method RemoveNext(context: CreateContext, comp: Comp, instances: seq<CreatedInstance>, n: nat,
                    ghost opts: seq<Option<Tool>>, ghost instances0: seq<CreatedInstance>,
                    ghost tools0: seq<Tool>, ghost calls0: seq<HostCall>)
    requires n < |instances| == |opts| && instances[n].tool == opts[n]
    requires context.instances == RemovedAll(instances0, instances[..n])
    requires comp.tools == RemovedAll(tools0, FusionPipeline.Somes(opts[..n]))
    requires comp.calls == calls0 + DeleteCalls(FusionPipeline.Somes(opts[..n]))
    modifies context`instances, comp`tools, comp`calls
    ensures context.instances == RemovedAll(instances0, instances[..n + 1])
    ensures comp.tools == RemovedAll(tools0, FusionPipeline.Somes(opts[..n + 1]))
    ensures comp.calls == calls0 + DeleteCalls(FusionPipeline.Somes(opts[..n + 1]))
  {
    ghost var present := FusionPipeline.Somes(opts[..n]);
    RemovedAllSnoc(instances0, instances, n);
    SomesSnoc(opts, n);
    var t := instances[n].tool;
    RemoveInstance(context, comp, instances[n]);
    assert DeleteCalls(present) == old(DeleteCalls(present));
    if t.Some? {
      assert FusionPipeline.Somes(opts[..n + 1]) == present + [t.value];
      RemovedAllAppend(tools0, present, t.value);
      DeleteCallsSnoc(calls0, present, t.value);
    } else {
      assert FusionPipeline.Somes(opts[..n + 1]) == present;
    }
  }

  /** One more instance at the end of the loop. */
  lemma SomesSnoc<T>(opts: seq<Option<T>>, n: nat)
    requires n < |opts|
    ensures FusionPipeline.Somes(opts[..n + 1])
      == FusionPipeline.Somes(opts[..n]) + (if opts[n].Some? then [opts[n].value] else [])
  {
    assert opts[..n + 1][..n] == opts[..n];
  }

  /** One more deletion at the end of the loop. */
  lemma DeleteCallsSnoc(calls: seq<HostCall>, tools: seq<Tool>, t: Tool)
    ensures calls + DeleteCalls(tools + [t]) == calls + DeleteCalls(tools) + [DeleteCall(t.name)]
  {
    assert (tools + [t])[..|tools|] == tools;
  }

  /** One step of `remove_instances`. */
  method RemoveInstance(context: CreateContext, comp: Comp, inst: CreatedInstance)
    modifies context`instances, comp`tools, comp`calls
    ensures context.instances == RemoveFirst(old(context.instances), inst)
    ensures inst.tool.Some? ==>
      comp.tools == RemoveFirst(old(comp.tools), inst.tool.value) &&
      comp.calls == old(comp.calls) + [DeleteCall(inst.tool.value.name)]
    ensures inst.tool.None? ==> comp.tools == old(comp.tools) && comp.calls == old(comp.calls)
  {
    if inst.tool.Some? {
      comp.Delete(inst.tool.value);
    }
    context.Remove(inst);
  }

  /** Removing instances the context holds once each leaves none of them. */
  lemma RemovedInstancesGone(before: seq<CreatedInstance>, instances: seq<CreatedInstance>)
    requires forall x :: multiset(before)[x] <= 1
    ensures forall x :: x in instances ==> x !in RemovedAll(before, instances)
    ensures |RemovedAll(before, instances)| >= |before| - |instances|
  {
    RemovedAllGone(before, instances);
    RemovedAllCount(before, instances);
  }

  // ---------------------------------------------------------------------
  // attribute definitions

  /** `_get_render_target_enum()`: local and frames always, farm only when
      `farm_rendering` is among the instance attributes. */
  function RenderTargetEnum(instanceAttributes: seq<string>): (d: AttrDef)
    ensures d.EnumDef? && d.key == "render_target" && d.enumDefault == None
    ensures |d.items| >= 2 && d.items[0].key == "local" && d.items[1].key == "frames"
    ensures "farm" in EnumKeys(d.items) <==> "farm_rendering" in instanceAttributes
  {
    var items := [EnumItem("local", "Local machine rendering"), EnumItem("frames", "Use existing frames")]
      + (if "farm_rendering" in instanceAttributes then [EnumItem("farm", "Farm rendering")] else []);
    assert EnumKeys(items) == [items[0].key, items[1].key] + EnumKeys(items[2..]);
    EnumDef("render_target", items, None, "Render target")
  }

  /** `_get_reviewable_bool()`: review defaults to on exactly when
      `reviewable` is among the instance attributes. */
  function ReviewableBool(instanceAttributes: seq<string>): (d: AttrDef)
    ensures d.BoolDef? && d.key == "review"
    ensures d.boolDefault <==> "reviewable" in instanceAttributes
  {
    BoolDef("review", "reviewable" in instanceAttributes, "Review")
  }

  /** The image formats a saver can write. */
  const ImageFormats: seq<string> := ["exr", "tga", "tif", "png", "jpg"]

  /** `_get_image_format_enum()`: each format is its own title; the default
      is the creator's format, which is one of the offered keys. */
  function ImageFormatEnum(imageFormat: string): (d: AttrDef)
    ensures d.EnumDef? && d.key == "image_format"
    ensures EnumKeys(d.items) == ImageFormats
    ensures d.enumDefault == Some(imageFormat)
  {
    var items := seq(|ImageFormats|, i requires 0 <= i < |ImageFormats| => EnumItem(ImageFormats[i], ImageFormats[i]));
    EnumDef("image_format", items, Some(imageFormat), "Output Image Format")
  }

  /** The class default format is among the offered keys. */
  lemma DefaultImageFormatOffered()
    ensures ImageFormatEnum(ImageFormat).enumDefault.value in EnumKeys(ImageFormatEnum(ImageFormat).items)
  {
    assert ImageFormats[0] == ImageFormat;
  }
}
