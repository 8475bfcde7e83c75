/** The render saver creator: its attribute definitions (render target,
    review, frame-range source, image format and the custom frame range) and
    the callback that rebuilds an instance's definitions when its
    frame-range source changes. */
module CreateSaver {
  import opened Wrappers
  import opened HostData
  import opened Host
  import opened Creation
  import FusionLib
  import FusionPlugin

  /** The creator's identifier. */
  const Identifier := "io.openpype.creators.fusion.saver"

  /** The creator settings the definitions depend on. */
  datatype SaverSettings = SaverSettings(
    instanceAttributes: seq<string>,
    imageFormat: string,
    defaultFrameRangeOption: string)

  /** The class defaults. */
  const DefaultSettings := SaverSettings(FusionPlugin.InstanceAttributes, FusionPlugin.ImageFormat, "current_context")

  // ---------------------------------------------------------------------
  // _get_frame_range_enum

  /** The frame-range sources the creator offers, with their titles. */
  const FrameRangeItems: seq<EnumItem> := [
    EnumItem("current_task", "Current context"),
    EnumItem("render_range", "From render in/out"),
    EnumItem("comp_range", "From composition timeline"),
    EnumItem("custom_range", "Custom frame range")]

  /** The values the project settings accept for the default frame-range
      source, with their titles. */
  const SettingsFrameRangeItems: seq<EnumItem> := [
    EnumItem("current_context", "Current context"),
    EnumItem("render_range", "From render in/out"),
    EnumItem("comp_range", "From composition timeline"),
    EnumItem("custom_range", "Custom frame range")]

  /** `_get_frame_range_enum()` as written: the configured default is passed
      through unchanged, whether or not it is one of the offered keys. */
  function FrameRangeEnumAsWritten(defaultOption: string): (d: AttrDef)
    ensures d.EnumDef? && d.key == "frame_range_source" && d.enumDefault == Some(defaultOption)
    ensures EnumKeys(d.items) == ["current_task", "render_range", "comp_range", "custom_range"]
  {
    EnumDef("frame_range_source", FrameRangeItems, Some(defaultOption), "Frame range source")
  }

  /** The class default, which is also the settings default, names none of
      the offered sources. */
  lemma ClassDefaultNotOffered()
    ensures var d := FrameRangeEnumAsWritten(DefaultSettings.defaultFrameRangeOption);
      d.enumDefault.value !in EnumKeys(d.items)
  {
    var d := FrameRangeEnumAsWritten(DefaultSettings.defaultFrameRangeOption);
    assert EnumKeys(d.items)[0] == "current_task";
  }

  /** The key a settings value stands for: the settings call the current
      context `current_context`, the creator calls it `current_task`. */
  function OptionKey(option: string): (k: string)
    ensures option != "current_context" ==> k == option
  {
    if option == "current_context" then "current_task" else option
  }

  /** `_get_frame_range_enum()` with the default translated to the
      creator's key for the same source. */
  function FrameRangeEnum(defaultOption: string): (d: AttrDef)
    ensures d.EnumDef? && d.key == "frame_range_source"
    ensures EnumKeys(d.items) == ["current_task", "render_range", "comp_range", "custom_range"]
    ensures d.enumDefault == Some(OptionKey(defaultOption))
  {
    EnumDef("frame_range_source", FrameRangeItems, Some(OptionKey(defaultOption)), "Frame range source")
  }

  /** Every default the settings accept now names an offered source, and the
      one with the same title. */
  lemma SettingsDefaultOffered(i: nat)
    requires i < |SettingsFrameRangeItems|
    ensures var d := FrameRangeEnum(SettingsFrameRangeItems[i].key);
      d.enumDefault.value in EnumKeys(d.items) && d.items[i].key == d.enumDefault.value &&
      d.items[i].title == SettingsFrameRangeItems[i].title
  {
    var d := FrameRangeEnum(SettingsFrameRangeItems[i].key);
    assert EnumKeys(d.items)[i] == d.items[i].key;
  }

  // ---------------------------------------------------------------------
  // _get_custom_frame_range_attribute_defs

  /** The defaults of the four custom frame-range fields. */
  datatype FrameDefaults = FrameDefaults(frameStart: int, frameEnd: int, handleStart: int, handleEnd: int)

  /** The custom-range defaults: from the open comp's global and render
      ranges, or 1001-1100 without handles when no comp is open (`range` is
      the current comp's frame range, `None` without a comp). The comp's
      global range becomes the frame range and the render range lies
      `handleStart`/`handleEnd` inside it. */
  function CustomFrameDefaults(range: Option<FrameRange>): (r: FrameDefaults)
    ensures range.None? ==> r == FrameDefaults(1001, 1100, 0, 0)
    ensures range.Some? ==>
      r.frameStart == range.value.globalStart && r.frameEnd == range.value.globalEnd &&
      r.frameStart + r.handleStart == range.value.renderStart &&
      r.frameEnd - r.handleEnd == range.value.renderEnd
  {
    match range
    case None => FrameDefaults(1001, 1100, 0, 0)
    case Some(g) => FrameDefaults(g.globalStart, g.globalEnd, g.renderStart - g.globalStart, g.globalEnd - g.renderEnd)
  }

  /** After `update_frame_range(start, end, set_render_range=True, hs, he)`
      the defaults carry the handles back, but start and end at the global
      range, that is with the handles already included. */
  lemma DefaultsAfterUpdateFrameRange(r: FrameRange, start: int, end: int, handleStart: int, handleEnd: int)
    ensures CustomFrameDefaults(Some(ApplyRange(r,
        FusionLib.FrameRangeAttrs(start, end, true, Some(handleStart), Some(handleEnd)))))
      == FrameDefaults(start - handleStart, end + handleEnd, handleStart, handleEnd)
  {
    var after := ApplyRange(r, FusionLib.FrameRangeAttrs(start, end, true, Some(handleStart), Some(handleEnd)));
    assert after == FrameRange(start - handleStart, end + handleEnd, start, end);
  }

  /** `creator_attributes.frame_range_source` of an instance's data, when set. */
  function FrameRangeSource(data: map<string, Value>): Option<Value> {
    Get(Dict(data), ["creator_attributes", "frame_range_source"])
  }

  /** Whether the custom fields are enabled: always without an instance,
      otherwise exactly when its frame-range source is `custom_range`. */
  function CustomEnabled(instance: Option<map<string, Value>>): (r: bool)
    ensures instance.None? ==> r
    ensures instance.Some? ==> (r <==> FrameRangeSource(instance.value) == Some(Str("custom_range")))
  {
    match instance
    case None => true
    case Some(data) => FrameRangeSource(data) == Some(Str("custom_range"))
  }

  /** The title of the label shown above the custom fields. */
  const CustomLabel := "<br><b>Custom Frame Range</b>"

  /** The four custom fields, in order: whole numbers from 0, shown exactly
      when `enabled`, defaulting to `f`. */
  function CustomNumbers(f: FrameDefaults, enabled: bool): (r: seq<AttrDef>)
    ensures |r| == 4
    ensures forall i :: 0 <= i < 4 ==> r[i].NumberDef? && r[i].minimum == 0 && r[i].decimals == 0 && r[i].visible == enabled
    ensures r[0].key == "custom_frameStart" && r[0].numberDefault == f.frameStart
    ensures r[1].key == "custom_frameEnd" && r[1].numberDefault == f.frameEnd
    ensures r[2].key == "custom_handleStart" && r[2].numberDefault == f.handleStart
    ensures r[3].key == "custom_handleEnd" && r[3].numberDefault == f.handleEnd
  {
    [NumberDef("custom_frameStart", "Frame Start", f.frameStart, 0, 0, enabled),
     NumberDef("custom_frameEnd", "Frame End", f.frameEnd, 0, 0, enabled),
     NumberDef("custom_handleStart", "Handle Start", f.handleStart, 0, 0, enabled),
     NumberDef("custom_handleEnd", "Handle End", f.handleEnd, 0, 0, enabled)]
  }

  /** `_get_custom_frame_range_attribute_defs(instance)`: the label only
      when the fields are enabled, then the four number fields. */
  function CustomFrameRangeDefs(instance: Option<map<string, Value>>, range: Option<FrameRange>): (defs: seq<AttrDef>)
    ensures |defs| == (if CustomEnabled(instance) then 5 else 4)
    ensures LabelDef(CustomLabel) in defs <==> CustomEnabled(instance)
    ensures CustomEnabled(instance) ==> defs[0] == LabelDef(CustomLabel)
    ensures forall i :: 0 <= i < 4 ==>
      defs[|defs| - 4 + i] == CustomNumbers(CustomFrameDefaults(range), CustomEnabled(instance))[i]
  {
    var numbers := CustomNumbers(CustomFrameDefaults(range), CustomEnabled(instance));
    var defs := (if CustomEnabled(instance) then [LabelDef(CustomLabel)] else []) + numbers;
    assert forall d :: d in numbers ==> d.NumberDef?;
    defs
  }

  // ---------------------------------------------------------------------
  // get_pre_create_attr_defs / get_attr_defs_for_instance

  /** The definitions shared by the create page and the instances, followed
      by the custom frame-range fields for `instance`. */
  function SaverAttrDefs(settings: SaverSettings, instance: Option<map<string, Value>>, range: Option<FrameRange>)
    : (defs: seq<AttrDef>)
    ensures |defs| >= 4 && defs[4..] == CustomFrameRangeDefs(instance, range)
    ensures defs[0] == FusionPlugin.RenderTargetEnum(settings.instanceAttributes)
    ensures defs[1] == FusionPlugin.ReviewableBool(settings.instanceAttributes)
    ensures defs[2] == FrameRangeEnum(settings.defaultFrameRangeOption)
    ensures defs[3] == FusionPlugin.ImageFormatEnum(settings.imageFormat)
  {
    [FusionPlugin.RenderTargetEnum(settings.instanceAttributes),
     FusionPlugin.ReviewableBool(settings.instanceAttributes),
     FrameRangeEnum(settings.defaultFrameRangeOption),
     FusionPlugin.ImageFormatEnum(settings.imageFormat)]
    + CustomFrameRangeDefs(instance, range)
  }

  /** `get_pre_create_attr_defs()`: render target, review, frame-range
      source, image format, then the label and the four custom fields, all
      shown. */
  lemma PreCreateAttrDefsOrder(settings: SaverSettings, range: Option<FrameRange>)
    ensures var defs := SaverAttrDefs(settings, None, range);
      |defs| == 9 &&
      defs[0].EnumDef? && defs[0].key == "render_target" && defs[1].BoolDef? && defs[1].key == "review" &&
      defs[2].EnumDef? && defs[2].key == "frame_range_source" && defs[3].EnumDef? && defs[3].key == "image_format" &&
      defs[4] == LabelDef(CustomLabel) &&
      (forall i :: 5 <= i < 9 ==> defs[i].NumberDef? && defs[i].visible)
  {
    var defs := SaverAttrDefs(settings, None, range);
    var tail := CustomFrameRangeDefs(None, range);
    assert defs[4] == defs[4..][0] == tail[0];
    forall i | 5 <= i < 9
      ensures defs[i].NumberDef? && defs[i].visible
    {
      assert defs[i] == defs[4..][i - 4] == tail[|tail| - 4 + (i - 5)];
    }
  }

  /** An instance's definitions hide the custom fields exactly when its
      frame-range source is not `custom_range`: the label is dropped and the
      four fields are not shown. */
  lemma InstanceDefsFollowSource(settings: SaverSettings, data: map<string, Value>, range: Option<FrameRange>)
    ensures var defs := SaverAttrDefs(settings, Some(data), range);
      var custom := FrameRangeSource(data) == Some(Str("custom_range"));
      (|defs| == if custom then 9 else 8) &&
      (LabelDef(CustomLabel) in defs <==> custom) &&
      (forall i :: |defs| - 4 <= i < |defs| ==> defs[i].NumberDef? && (defs[i].visible <==> custom))
  {
    var defs := SaverAttrDefs(settings, Some(data), range);
    var tail := CustomFrameRangeDefs(Some(data), range);
    CustomDefsFollowSource(data, range);
    assert defs == defs[..4] + tail;
    assert forall d :: d in defs[..4] ==> !d.LabelDef?;
    assert forall i :: |defs| - 4 <= i < |defs| ==> defs[i] == tail[i - 4];
  }

  /** The custom part of an instance's definitions follows its frame-range
      source. */
  lemma CustomDefsFollowSource(data: map<string, Value>, range: Option<FrameRange>)
    ensures var tail := CustomFrameRangeDefs(Some(data), range);
      forall i :: |tail| - 4 <= i < |tail| ==>
        tail[i].NumberDef? && (tail[i].visible <==> FrameRangeSource(data) == Some(Str("custom_range")))
  {
    var tail := CustomFrameRangeDefs(Some(data), range);
    forall i | |tail| - 4 <= i < |tail|
      ensures tail[i].NumberDef? && (tail[i].visible <==> FrameRangeSource(data) == Some(Str("custom_range")))
    {
      assert tail[|tail| - 4 + (i - |tail| + 4)] == tail[i];
    }
  }

  // ---------------------------------------------------------------------
  // on_values_changed

  /** One entry of a value-changed event: the instance and its changed
      values. */
  datatype InstanceChange = InstanceChange(instance: CreatedInstance, changes: map<string, Value>)

  /** Whether a change concerns this creator's instance and touches
      `creator_attributes.frame_range_source`. */
  predicate Responds(c: InstanceChange) {
    c.instance.creatorIdentifier == Identifier &&
    "creator_attributes" in c.changes && c.changes["creator_attributes"].Dict? &&
    "frame_range_source" in c.changes["creator_attributes"].entries
  }

  /** The instances of an event's changes. */
  function Instances(changes: seq<InstanceChange>): (r: seq<CreatedInstance>)
    ensures |r| == |changes| && forall i :: 0 <= i < |changes| ==> r[i] == changes[i].instance
  {
    seq(|changes|, i requires 0 <= i < |changes| => changes[i].instance)
  }

  /** Whether one of `changes` that responds is about `inst`. */
  predicate Reset(changes: seq<InstanceChange>, inst: CreatedInstance) {
    exists j :: 0 <= j < |changes| && changes[j].instance == inst && Responds(changes[j])
  }

  /** `on_values_changed(event)` for this creator: each responding
      instance gets the definitions rebuilt from its data; every other
      instance keeps its definitions. */
  method OnValuesChanged(settings: SaverSettings, changes: seq<InstanceChange>, range: Option<FrameRange>)
    modifies Instances(changes)`attrDefs
    ensures forall i :: 0 <= i < |changes| ==>
      (changes[i].instance.attrDefs ==
        if Reset(changes, changes[i].instance)
        then SaverAttrDefs(settings, Some(changes[i].instance.data), range)
        else old(changes[i].instance.attrDefs))
  {
    ResetResponding(changes, data => SaverAttrDefs(settings, Some(data), range));
  }

  /** The loop of `on_values_changed`, for any way `defsFor` of building an
      instance's definitions from its data. */
  method ResetResponding(changes: seq<InstanceChange>, defsFor: map<string, Value> -> seq<AttrDef>)
    modifies Instances(changes)`attrDefs
    ensures forall i :: 0 <= i < |changes| ==>
      (changes[i].instance.attrDefs ==
        if Reset(changes, changes[i].instance)
        then defsFor(changes[i].instance.data)
        else old(changes[i].instance.attrDefs))
  {
    for n := 0 to |changes|
      invariant forall i :: 0 <= i < |changes| ==>
        (changes[i].instance.attrDefs ==
          if Reset(changes[..n], changes[i].instance)
          then defsFor(changes[i].instance.data)
          else old(changes[i].instance.attrDefs))
    {
      ResetSnoc(changes, n);
      ResetNext(changes, n, defsFor);
    }
    assert changes[..|changes|] == changes;
  }

  /** One more change at the end of the loop. */
  lemma ResetSnoc(changes: seq<InstanceChange>, n: nat)
    requires n < |changes|
    ensures forall inst :: Reset(changes[..n + 1], inst) <==>
      Reset(changes[..n], inst) || (changes[n].instance == inst && Responds(changes[n]))
  {
    assert changes[..n + 1][..n] == changes[..n];
    assert changes[..n + 1][n] == changes[n];
  }

  /** Iteration `n` of `on_values_changed`: the instance of change `n` gets
      its definitions rebuilt when the change responds. */
  method ResetNext(changes: seq<InstanceChange>, n: nat, defsFor: map<string, Value> -> seq<AttrDef>)
    requires n < |changes|
    modifies changes[n].instance`attrDefs
    ensures forall i :: 0 <= i < |changes| ==>
      (changes[i].instance.attrDefs ==
        if changes[i].instance == changes[n].instance && Responds(changes[n])
        then defsFor(changes[i].instance.data)
        else old(changes[i].instance.attrDefs))
  {
    var c := changes[n];
    if Responds(c) {
      c.instance.SetCreateAttrDefs(defsFor(c.instance.data));
    }
  }
}
