/** The optional publish validator that compares the resolution a saver's
    input delivers on the instance's first frame (handles included) with the
    resolution of the instance's task, or of its folder when the
    instance has no task. */
module ValidateSaverResolution {
  import opened Wrappers
  import opened HostData
  import opened Host
  import FusionLib

  /** What the validator reads of a publish instance: the saver
      (`data["tool"]`), the first frame with handles
      (`data["frameStartHandle"]`) and the rest of its data, where its task
      and folder entities live. */
  datatype ResolutionInstance = ResolutionInstance(tool: Tool, frameStartHandle: int, data: map<string, Value>)

  /** How a run ends in error: the two `PublishValidationError`s the plugin
      raises, the probe's `TypeError` that neither `except` clause catches,
      and the `KeyError` (or `TypeError` on a non-table) of a lookup in an
      entity. */
  datatype ValidationError =
    | CannotReadResolution(frame: int)
    | ResolutionMismatch(expected: (Value, Value), actual: (int, int))
    | ProbeTypeError
    | EntityKeyError(key: string)

  // ---------------------------------------------------------------------
  // get_expected_resolution

  /** `entity[key]` */
  function Lookup(entity: Value, key: string): (r: Result<Value, ValidationError>)
    ensures r.Success? <==> entity.Dict? && key in entity.entries
    ensures r.Success? ==> Get(entity, [key]) == Some(r.value)
    ensures r.Failure? ==> r.error == EntityKeyError(key)
  {
    if entity.Dict? && key in entity.entries then Success(entity.entries[key]) else Failure(EntityKeyError(key))
  }

  /** `attrib["resolutionWidth"], attrib["resolutionHeight"]` of an entity. */
  function AttribResolution(entity: Value): Result<(Value, Value), ValidationError> {
    match Lookup(entity, "attrib")
    case Failure(e) => Failure(e)
    case Success(attrib) =>
      match Lookup(attrib, "resolutionWidth")
      case Failure(e) => Failure(e)
      case Success(w) =>
        match Lookup(attrib, "resolutionHeight")
        case Failure(e) => Failure(e)
        case Success(h) => Success((w, h))
  }

  /** The entity whose resolution is expected: a task entity when the data
      holds a truthy one, otherwise `data["folderEntity"]`. */
  function ExpectedEntity(data: map<string, Value>): Result<Value, ValidationError> {
    if "taskEntity" in data && Truthy(data["taskEntity"]) then Success(data["taskEntity"])
    else if "folderEntity" in data then Success(data["folderEntity"])
    else Failure(EntityKeyError("folderEntity"))
  }

  /** `get_expected_resolution(instance)` */
  function ExpectedResolution(data: map<string, Value>): Result<(Value, Value), ValidationError> {
    match ExpectedEntity(data)
    case Failure(e) => Failure(e)
    case Success(entity) => AttribResolution(entity)
  }

  /** A task entity that carries both attributes decides the expected
      resolution, whatever the folder says. */
  lemma ExpectedPrefersTask(data: map<string, Value>, w: Value, h: Value)
    requires Get(Dict(data), ["taskEntity", "attrib", "resolutionWidth"]) == Some(w)
    requires Get(Dict(data), ["taskEntity", "attrib", "resolutionHeight"]) == Some(h)
    ensures ExpectedResolution(data) == Success((w, h))
  {
    var task := data["taskEntity"];
    assert "attrib" in task.entries;
    assert Truthy(task) by {
      assert task.entries["attrib"] == task.entries["attrib"];
      assert |task.entries| != 0;
    }
  }

  /** Without a (truthy) task entity the folder entity's attributes are
      expected. */
  lemma ExpectedFallsBackToFolder(data: map<string, Value>, w: Value, h: Value)
    requires "taskEntity" !in data || !Truthy(data["taskEntity"])
    requires Get(Dict(data), ["folderEntity", "attrib", "resolutionWidth"]) == Some(w)
    requires Get(Dict(data), ["folderEntity", "attrib", "resolutionHeight"]) == Some(h)
    ensures ExpectedResolution(data) == Success((w, h))
  {
  }

  /** An expected resolution is always read from one of the two entities,
      and is a task's exactly when its task entity is truthy. */
  lemma ExpectedComesFromEntity(data: map<string, Value>)
    ensures ExpectedResolution(data).Success? ==>
      var (w, h) := ExpectedResolution(data).value;
      var key := if "taskEntity" in data && Truthy(data["taskEntity"]) then "taskEntity" else "folderEntity";
      Get(Dict(data), [key, "attrib", "resolutionWidth"]) == Some(w) &&
      Get(Dict(data), [key, "attrib", "resolutionHeight"]) == Some(h)
    ensures ExpectedResolution(data).Failure? ==> ExpectedResolution(data).error.EntityKeyError?
  {
  }

  // ---------------------------------------------------------------------
  // get_resolution, process, get_invalid

  /** Python's `==` between an `int` the probe returned and an attribute
      value: equal to the same integer, and `True`/`False` equal 1/0. */
  predicate IntEquals(i: int, v: Value) {
    v == Int(i) || (v.Bool? && i == (if v.b then 1 else 0))
  }

  /** `resolution == expected_resolution` over two pairs. */
  predicate SameResolution(actual: (int, int), expected: (Value, Value)) {
    IntEquals(actual.0, expected.0) && IntEquals(actual.1, expected.1)
  }

  /** `get_resolution(instance)`: the probe's `ValueError` becomes a
      validation error naming the frame; its `TypeError` passes through. */
  function Resolution(probed: Result<(int, int), FusionLib.ProbeError>, frame: int): (r: Result<(int, int), ValidationError>)
    ensures probed.Success? <==> r.Success?
    ensures probed.Success? ==> r.value == probed.value
    ensures probed.Failure? && probed.error.ValueError? ==> r == Failure(CannotReadResolution(frame))
    ensures probed.Failure? && probed.error.TypeError? ==> r == Failure(ProbeTypeError)
  {
    match probed
    case Success(res) => Success(res)
    case Failure(ValueError(_)) => Failure(CannotReadResolution(frame))
    case Failure(TypeError) => Failure(ProbeTypeError)
  }

  /** How `process` ends once the plugin is active: the resolution is read
      first, so its error wins over one of the entities; then the mismatch. */
  function ProcessOutcome(resolution: Result<(int, int), ValidationError>,
                          expected: Result<(Value, Value), ValidationError>): Option<ValidationError>
  {
    match resolution
    case Failure(e) => Some(e)
    case Success(res) =>
      match expected
      case Failure(e) => Some(e)
      case Success(exp) => if SameResolution(res, exp) then None else Some(ResolutionMismatch(exp, res))
  }

  /** With both resolutions read, `process` raises exactly on a mismatch, and
      the error carries both pairs. */
  lemma ProcessRaisesIffMismatch(res: (int, int), exp: (Value, Value))
    ensures ProcessOutcome(Success(res), Success(exp)).Some? <==> !SameResolution(res, exp)
    ensures ProcessOutcome(Success(res), Success(exp)).Some? ==>
      ProcessOutcome(Success(res), Success(exp)).value == ResolutionMismatch(exp, res)
  {
  }

  /** On integer attributes the comparison is plain equality of the pairs. */
  lemma SameResolutionOnInts(res: (int, int), w: int, h: int)
    ensures SameResolution(res, (Int(w), Int(h))) <==> res == (w, h)
  {
  }

  /** `process(instance)`. `active` is `is_active(instance.data)` (the
      optional plugin switched on for this instance); `evalAt(frame)` is the
      host's evaluation of an expression on the saver at that frame. Inactive,
      nothing is read. Active, the resolution probe runs at the first frame
      with handles, with the lock, undo and comment-input effects the probe
      has. */
  method Process(inst: ResolutionInstance, comp: Comp, active: bool, evalAt: int -> (string -> Value))
    returns (r: Option<ValidationError>)
    modifies comp`calls, inst.tool.comments
    ensures !active ==> r == None && comp.calls == old(comp.calls)
    ensures !active ==> unchanged(inst.tool.comments)
    ensures active ==> r == ProcessOutcome(
      Resolution(FusionLib.ProbedResolution(evalAt(inst.frameStartHandle)), inst.frameStartHandle),
      ExpectedResolution(inst.data))
    ensures active ==> comp.calls == old(comp.calls) + [
      HostCall.Lock, HostCall.StartUndo("Read resolution"), HostCall.Unlock, HostCall.EndUndo(false)]
  {
    if !active {
      return None;
    }
    var probed := FusionLib.GetToolResolution(inst.tool, comp, evalAt(inst.frameStartHandle));
    var resolution := Resolution(probed, inst.frameStartHandle);
    if resolution.Failure? {
      return Some(resolution.error);
    }
    var expected := ExpectedResolution(inst.data);
    if expected.Failure? {
      return Some(expected.error);
    }
    if !SameResolution(resolution.value, expected.value) {
      return Some(ResolutionMismatch(expected.value, resolution.value));
    }
    r := None;
  }

  /** How `get_invalid` ends: `[saver]` when the resolution cannot be read
      (it then compares `None` with a pair) or differs, `None` when it
      matches; the probe's `TypeError` and an entity's lookup error escape. */
  function InvalidOutcome(tool: Tool, resolution: Result<(int, int), ValidationError>,
                          expected: Result<(Value, Value), ValidationError>): Result<Option<seq<Tool>>, ValidationError>
  {
    if resolution.Failure? && !resolution.error.CannotReadResolution? then Failure(resolution.error)
    else if expected.Failure? then Failure(expected.error)
    else if resolution.Success? && SameResolution(resolution.value, expected.value) then Success(None)
    else Success(Some([tool]))
  }

  /** Whenever the entities can be read, `get_invalid` flags the saver
      exactly when `process` raises one of its own validation errors, and
      both let the probe's `TypeError` through. */
  lemma InvalidAgreesWithProcess(tool: Tool, resolution: Result<(int, int), ValidationError>,
                                 expected: Result<(Value, Value), ValidationError>)
    requires expected.Success?
    requires resolution.Failure? ==> resolution.error.CannotReadResolution? || resolution.error.ProbeTypeError?
    ensures InvalidOutcome(tool, resolution, expected) == Success(Some([tool])) <==>
      (ProcessOutcome(resolution, expected).Some? &&
       (ProcessOutcome(resolution, expected).value.CannotReadResolution? ||
        ProcessOutcome(resolution, expected).value.ResolutionMismatch?))
    ensures InvalidOutcome(tool, resolution, expected) == Success(None) <==> ProcessOutcome(resolution, expected).None?
    ensures ProcessOutcome(resolution, expected) == Some(ProbeTypeError) <==>
      InvalidOutcome(tool, resolution, expected) == Failure(ProbeTypeError)
  {
  }

  /** `get_invalid(instance)`: the same probe as `process`, whose
      validation error is swallowed. */
  method GetInvalid(inst: ResolutionInstance, comp: Comp, evalAt: int -> (string -> Value))
    returns (r: Result<Option<seq<Tool>>, ValidationError>)
    modifies comp`calls, inst.tool.comments
    ensures r == InvalidOutcome(inst.tool,
      Resolution(FusionLib.ProbedResolution(evalAt(inst.frameStartHandle)), inst.frameStartHandle),
      ExpectedResolution(inst.data))
    ensures comp.calls == old(comp.calls) + [
      HostCall.Lock, HostCall.StartUndo("Read resolution"), HostCall.Unlock, HostCall.EndUndo(false)]
  {
    var saver := inst.tool;
    var probed := FusionLib.GetToolResolution(saver, comp, evalAt(inst.frameStartHandle));
    var resolution := Resolution(probed, inst.frameStartHandle);
    if resolution.Failure? && !resolution.error.CannotReadResolution? {
      return Failure(resolution.error);
    }
    var expected := ExpectedResolution(inst.data);
    if expected.Failure? {
      return Failure(expected.error);
    }
    if resolution.Success? && SameResolution(resolution.value, expected.value) {
      return Success(None);
    }
    r := Success(Some([saver]));
  }
}
