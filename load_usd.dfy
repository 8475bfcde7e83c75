/** The USD loader: a `uLoader` tool on the representation's file, imprinted
    as a container, switched to another representation by rewriting its
    `Filename` input and `avalon.representation`, and removed inside an undo
    chunk. The plugin only enables itself on Fusion 18.5 and later. */
module LoadUsd {
  import opened Wrappers
  import opened HostData
  import opened Host
  import FusionLib
  import FusionPipeline

  /** The tool type this loader creates and accepts. */
  const ToolType := "uLoader"

  /** The name this loader imprints as `loader` (its class name). */
  const LoaderName := "FusionLoadUSD"

  // ---------------------------------------------------------------------
  // apply_settings

  /** Python's `<` on tuples of numbers: the first differing position
      decides, and a proper prefix is smaller. */
  function TupleLess(a: seq<int>, b: seq<int>): (r: bool)
    ensures a == b ==> !r
    decreases |a|
  {
    if a == [] then b != []
    else if b == [] then false
    else if a[0] != b[0] then a[0] < b[0]
    else TupleLess(a[1..], b[1..])
  }

  /** `(major, minor) >= (18, 5)`. */
  predicate UsdSupported(major: int, minor: int) {
    !TupleLess([major, minor], [18, 5])
  }

  /** The version gate in closed form: any major above 18, or 18 with a
      minor of at least 5. */
  lemma UsdSupportedIff(major: int, minor: int)
    ensures UsdSupported(major, minor) <==> major > 18 || (major == 18 && minor >= 5)
  {
    assert [major, minor][1..] == [minor] && [18, 5][1..] == [5];
    assert [minor][1..] == [] && [5][1..] == [];
    assert TupleLess([minor], [5]) == (minor < 5);
    assert TupleLess([major, minor], [18, 5]) == if major != 18 then major < 18 else minor < 5;
  }

  /** The plugin class: `apply_settings` updates its `enabled` flag. */
  class Plugin {
    var enabled: bool

    constructor ()
      ensures enabled
    {
      enabled := true;
    }

    /** `FusionLoadUSD.apply_settings`: the base class sets `enabled` from the
        project settings (`settingsEnabled`); an enabled plugin then stays
        enabled only when the running Fusion's version `(major, minor)` is at
        least 18.5. A disabled plugin is never re-enabled. */
    method ApplySettings(settingsEnabled: bool, major: int, minor: int)
      modifies this
      ensures enabled <==> settingsEnabled && (major > 18 || (major == 18 && minor >= 5))
    {
      enabled := settingsEnabled;
      if enabled {
        UsdSupportedIff(major, minor);
        enabled := UsdSupported(major, minor);
      }
    }
  }

  // ---------------------------------------------------------------------
  // load / update / remove

  /** `FusionLoadUSD.load`: inside an undo chunk, a new `uLoader` whose
      `Filename` is the representation's path, imprinted as a container of
      this loader; the namespace falls back to the folder name. The host
      names the new tool `hostName` and may adjust other inputs when the
      file name is set (`fileEffects`). */
  method Load(comp: Comp, context: FusionPipeline.LoadContext, name: string, namespace: Option<string>,
              path: string, hostName: string, fileEffects: map<InputId, Value>)
    returns (tool: Tool)
    requires InputId.Filename !in fileEffects
    modifies comp`tools, comp`calls
    ensures fresh(tool) && comp.tools == old(comp.tools) + [tool]
    ensures tool.id == ToolType && tool.name == hostName
    ensures InputId.Filename in tool.inputs && tool.inputs[InputId.Filename] == Str(path)
    ensures FusionPipeline.ContainerOf(tool) == Some(FusionPipeline.Container(
      FusionPipeline.ImprintedFields(Some(name), Some(namespace.GetOr(context.folderName)), Some(LoaderName), context),
      hostName, tool))
    ensures tool.writes == [InputWrite(InputId.Filename, Str(path))] + FusionPipeline.DataWrites("avalon",
      FusionPipeline.ContainerEntries(Some(name), Some(namespace.GetOr(context.folderName)), Some(LoaderName), context))
    ensures comp.calls == old(comp.calls) + FusionLib.Chunk("Create tool", [AddToolCall(ToolType)], true)
  {
    ghost var calls0 := comp.calls;
    FusionLib.EnterLockAndUndo(comp, "Create tool");
    tool := AddUsdLoader(comp, name, namespace.GetOr(context.folderName), context, path, hostName, fileEffects);
    FusionLib.ExitLockAndUndo(comp, true);
    FusionLib.ChunkLog(calls0, "Create tool", [AddToolCall(ToolType)], true);
  }

  /** The body of `load`'s undo chunk: add the tool, set its file and
      imprint it. */
  method AddUsdLoader(comp: Comp, name: string, namespace: string, context: FusionPipeline.LoadContext,
                      path: string, hostName: string, fileEffects: map<InputId, Value>)
    returns (tool: Tool)
    requires InputId.Filename !in fileEffects
    modifies comp`tools, comp`calls
    ensures fresh(tool) && comp.tools == old(comp.tools) + [tool]
    ensures tool.id == ToolType && tool.name == hostName
    ensures InputId.Filename in tool.inputs && tool.inputs[InputId.Filename] == Str(path)
    ensures FusionPipeline.ContainerOf(tool) == Some(FusionPipeline.Container(
      FusionPipeline.ImprintedFields(Some(name), Some(namespace), Some(LoaderName), context), hostName, tool))
    ensures tool.writes == [InputWrite(InputId.Filename, Str(path))] + FusionPipeline.DataWrites("avalon",
      FusionPipeline.ContainerEntries(Some(name), Some(namespace), Some(LoaderName), context))
    ensures comp.calls == old(comp.calls) + [AddToolCall(ToolType)]
  {
    tool := NewUsdTool(comp, path, hostName, fileEffects);
    ImprintUsd(tool, name, namespace, context);
  }

  /** A new `uLoader` with its `Filename` set and an empty store. */
  method NewUsdTool(comp: Comp, path: string, hostName: string, fileEffects: map<InputId, Value>)
    returns (tool: Tool)
    requires InputId.Filename !in fileEffects
    modifies comp`tools, comp`calls
    ensures fresh(tool) && comp.tools == old(comp.tools) + [tool]
    ensures tool.id == ToolType && tool.name == hostName && tool.data == Dict(map[])
    ensures InputId.Filename in tool.inputs && tool.inputs[InputId.Filename] == Str(path)
    ensures tool.writes == [InputWrite(InputId.Filename, Str(path))]
    ensures comp.calls == old(comp.calls) + [AddToolCall(ToolType)]
  {
    tool := comp.AddTool(ToolType, hostName);
    tool.SetInput(InputId.Filename, Str(path), fileEffects);
  }

  /** The imprint of `load`: on a tool with an empty store, the container
      that `parse_container` then reads back. */
  method ImprintUsd(tool: Tool, name: string, namespace: string, context: FusionPipeline.LoadContext)
    requires tool.data == Dict(map[])
    modifies tool`data, tool`writes
    ensures FusionPipeline.ContainerOf(tool) == Some(FusionPipeline.Container(
      FusionPipeline.ImprintedFields(Some(name), Some(namespace), Some(LoaderName), context), tool.name, tool))
    ensures tool.writes == old(tool.writes) + FusionPipeline.DataWrites("avalon",
      FusionPipeline.ContainerEntries(Some(name), Some(namespace), Some(LoaderName), context))
  {
    FusionPipeline.ImprintContainer(tool, Some(name), Some(namespace), context, Some(LoaderName));
    FusionPipeline.ParseAfterImprint(Dict(map[]), Some(name), Some(namespace), Some(LoaderName), context);
  }

  /** `FusionLoadUSD.update` (and `switch`): on a `uLoader`, inside an undo
      chunk, point `Filename` at the new path and rewrite the imprinted
      representation; a container then reads back with only its
      `representation` changed. Any other tool fails the type assertion
      before any change. */
  method Update(container: FusionPipeline.Container, comp: Comp, representationId: string, path: string,
                fileEffects: map<InputId, Value>)
    returns (error: Option<string>)
    modifies container.tool`inputs, container.tool`writes, container.tool`data, comp`calls
    ensures error.Some? <==> container.tool.id != ToolType
    ensures error.Some? ==> unchanged(container.tool) && comp.calls == old(comp.calls)
    ensures error.None? ==>
      var tool := container.tool;
      tool.inputs == old(tool.inputs)[InputId.Filename := Str(path)] + fileEffects &&
      tool.data == Set(old(tool.data), FusionPipeline.RepresentationKey, Str(representationId)) &&
      tool.writes == old(tool.writes) + [InputWrite(InputId.Filename, Str(path)),
                                         DataWrite(FusionPipeline.RepresentationKey, Str(representationId))] &&
      comp.calls == old(comp.calls) + FusionLib.Chunk("Update tool", [], true)
    ensures error.None? && FusionPipeline.ParseAvalon(old(container.tool.data)).Some? ==>
      FusionPipeline.ParseAvalon(container.tool.data)
        == Some(FusionPipeline.ParseAvalon(old(container.tool.data)).value["representation" := Str(representationId)])
  {
    var tool := container.tool;
    if tool.id != ToolType {
      return Some("Must be " + ToolType);
    }
    error := None;
    ghost var calls0 := comp.calls;
    FusionLib.EnterLockAndUndo(comp, "Update tool");
    tool.SetInput(InputId.Filename, Str(path), fileEffects);
    FusionPipeline.SetRepresentation(tool, representationId);
    FusionLib.ExitLockAndUndo(comp, true);
    FusionLib.ChunkLog(calls0, "Update tool", [], true);
  }

  /** `FusionLoadUSD.remove`: delete a `uLoader` inside an undo chunk; any
      other tool fails the type assertion before any change. */
  method Remove(container: FusionPipeline.Container, comp: Comp) returns (error: Option<string>)
    modifies comp`tools, comp`calls
    ensures error.Some? <==> container.tool.id != ToolType
    ensures error.Some? ==> comp.tools == old(comp.tools) && comp.calls == old(comp.calls)
    ensures error.None? ==>
      comp.tools == RemoveFirst(old(comp.tools), container.tool) &&
      comp.calls == old(comp.calls) + FusionLib.Chunk("Remove tool", [DeleteCall(container.tool.name)], true)
  {
    if container.tool.id != ToolType {
      return Some("Must be " + ToolType);
    }
    error := None;
    ghost var calls0 := comp.calls;
    FusionLib.EnterLockAndUndo(comp, "Remove tool");
    comp.Delete(container.tool);
    FusionLib.ExitLockAndUndo(comp, true);
    FusionLib.ChunkLog(calls0, "Remove tool", [DeleteCall(container.tool.name)], true);
  }
}
