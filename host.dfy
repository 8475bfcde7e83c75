/** The part of Fusion's scripting surface this integration touches.

    The host is outside the model: its objects are modelled as classes holding the state
    the integration reads and writes (frame-range attributes, frame-format
    preferences, metadata stores, tool inputs, the pass-through flag and the
    name), and every write the integration makes is also recorded, in order,
    in a log (`Comp.calls` for comp-level calls, `Tool.writes` for tool-level
    ones), so that contracts can state which host calls were made and in what
    order. Whatever the host computes on its own (renders, expression results,
    path mapping, the inputs it resets when a clip changes) enters as a
    parameter. */
module Host {
  import opened Wrappers
  import opened HostData

  /** A `SetAttrs` payload over the comp's frame-range attributes
      (`COMPN_GlobalStart`, `COMPN_GlobalEnd`, `COMPN_RenderStart`,
      `COMPN_RenderEnd`); `None` means the key is not in the dictionary. */
  datatype RangeAttrs = RangeAttrs(
    globalStart: Option<int>,
    globalEnd: Option<int>,
    renderStart: Option<int>,
    renderEnd: Option<int>)

  /** The comp's four frame-range attributes. */
  datatype FrameRange = FrameRange(globalStart: int, globalEnd: int, renderStart: int, renderEnd: int)

  /** The range after `SetAttrs(a)`: each key present in `a` is replaced. */
  function ApplyRange(r: FrameRange, a: RangeAttrs): FrameRange {
    FrameRange(
      a.globalStart.GetOr(r.globalStart),
      a.globalEnd.GetOr(r.globalEnd),
      a.renderStart.GetOr(r.renderStart),
      a.renderEnd.GetOr(r.renderEnd))
  }

  /** Comp-level calls, in the order they were made. `SetPrefsCall` carries
      the keys below `Comp.FrameFormat.`. */
  datatype HostCall =
    | Lock
    | Unlock
    | StartUndo(queue: string)
    | EndUndo(keep: bool)
    | SetAttrsCall(attrs: RangeAttrs)
    | SetPrefsCall(prefs: map<string, real>)
    | RenderCall(start: int, end: int, flags: Option<int>)
    | AddToolCall(kind: string)
    | DeleteCall(tool: string)

  /** The tool inputs this integration reads or writes, by their names in
      the host (`Clip`, `GlobalIn`, ...); any other input is `OtherInput`. */
  datatype InputId =
    | Clip | Filename
    | ClipTimeStart | ClipTimeEnd | GlobalIn | GlobalOut
    | HoldFirstFrame | HoldLastFrame | Reverse | Depth | KeyCode | TimeCodeOffset
    | OtherInput(inputName: string)

  /** Tool-level writes, in the order they were made. */
  datatype ToolWrite =
    | PassThroughWrite(passThrough: bool)
    | NameWrite(name: string)
    | DataWrite(path: seq<string>, value: Value)
    | InputWrite(input: InputId, value: Value)

  /** A text input of a tool (the `Comments` input): a static value, or an
      expression the host evaluates when the input is read. */
  class TextInput {
    var value: Value
    var expression: Option<string>

    constructor (v: Value)
      ensures value == v && expression == None
    {
      value := v;
      expression := None;
    }

    /** `attribute[frame]`: the evaluated expression when there is one. The
        comments input is not animated, so the frame does not matter. */
    function Read(eval: string -> Value): (r: Value)
      reads this
      ensures expression == None ==> r == value
    {
      match expression
      case Some(e) => eval(e)
      case None => value
    }

    /** `attribute.SetExpression(e)`. */
    method SetExpression(e: Option<string>)
      modifies this`expression
      ensures expression == e
    {
      expression := e;
    }

    /** `attribute[frame] = v`. */
    method SetValue(v: Value)
      modifies this`value
      ensures value == v
    {
      value := v;
    }
  }

  /** A node of the comp. `id` is the tool's type (`Saver`, `Loader`,
      `uLoader`); `inputs` holds the input values at `TIME_UNDEFINED`. */
  class Tool {
    const id: string
    const comments: TextInput
    var name: string
    var passThrough: bool
    var data: Value
    var inputs: map<InputId, Value>
    /** The second entry of the `TOOLIT_Clip_Length` attribute. */
    var clipLength: int
    var writes: seq<ToolWrite>

    constructor (id: string, name: string)
      ensures this.id == id && this.name == name && !passThrough
      ensures data == Dict(map[]) && inputs == map[] && writes == []
      ensures fresh(comments)
    {
      this.id := id;
      this.name := name;
      passThrough := false;
      data := Dict(map[]);
      inputs := map[];
      clipLength := 0;
      writes := [];
      comments := new TextInput(Null);
    }

    /** `tool.GetData(".".join(path))`. */
    function GetData(path: seq<string>): (r: Option<Value>)
      reads this
      ensures path == [] ==> r == Some(data)
    {
      Get(data, path)
    }

    /** `tool.SetData(".".join(path), x)`. */
    method SetData(path: seq<string>, x: Value)
      modifies this`data, this`writes
      ensures data == Set(old(data), path, x)
      ensures writes == old(writes) + [DataWrite(path, x)]
    {
      data := Set(data, path, x);
      writes := writes + [DataWrite(path, x)];
    }

    /** `tool.SetAttrs({"TOOLB_PassThrough": b})`. */
    method SetPassThrough(b: bool)
      modifies this`passThrough, this`writes
      ensures passThrough == b
      ensures writes == old(writes) + [PassThroughWrite(b)]
    {
      passThrough := b;
      writes := writes + [PassThroughWrite(b)];
    }

    /** `tool.SetAttrs({"TOOLS_Name": n})`. */
    method SetName(n: string)
      modifies this`name, this`writes
      ensures name == n
      ensures writes == old(writes) + [NameWrite(n)]
    {
      name := n;
      writes := writes + [NameWrite(n)];
    }

    /** `tool[input][TIME_UNDEFINED] = v`. The host may adjust other inputs
        on its own in answer (`effects`). */
    method SetInput(input: InputId, v: Value, effects: map<InputId, Value>)
      modifies this`inputs, this`writes
      ensures inputs == old(inputs)[input := v] + effects
      ensures writes == old(writes) + [InputWrite(input, v)]
    {
      inputs := inputs[input := v] + effects;
      writes := writes + [InputWrite(input, v)];
    }

    /** Writing a clip path: the host re-reads the clip, which gives the tool a
        new clip length and resets some inputs (`resets`) on its own. */
    method SetClip(input: InputId, path: string, newLength: int, resets: map<InputId, Value>)
      modifies this`inputs, this`writes, this`clipLength
      ensures inputs == old(inputs)[input := Str(path)] + resets
      ensures clipLength == newLength
      ensures writes == old(writes) + [InputWrite(input, Str(path))]
    {
      inputs := inputs[input := Str(path)] + resets;
      clipLength := newLength;
      writes := writes + [InputWrite(input, Str(path))];
    }
  }

  /** The composition: its frame range, its `Comp.FrameFormat` preferences,
      its file name (`COMPS_FileName`), its metadata store and its tools. */
  class Comp {
    var range: FrameRange
    var frameFormat: map<string, real>
    var fileName: string
    var data: Value
    var tools: seq<Tool>
    var calls: seq<HostCall>

    constructor (range: FrameRange, frameFormat: map<string, real>, fileName: string)
      ensures this.range == range && this.frameFormat == frameFormat && this.fileName == fileName
      ensures data == Dict(map[]) && tools == [] && calls == []
    {
      this.range := range;
      this.frameFormat := frameFormat;
      this.fileName := fileName;
      data := Dict(map[]);
      tools := [];
      calls := [];
    }

    /** `comp.GetData(".".join(path))`. */
    function GetData(path: seq<string>): (r: Option<Value>)
      reads this
      ensures path == [] ==> r == Some(data)
    {
      Get(data, path)
    }

    method Lock()
      modifies this`calls
      ensures calls == old(calls) + [HostCall.Lock]
    {
      calls := calls + [HostCall.Lock];
    }

    method Unlock()
      modifies this`calls
      ensures calls == old(calls) + [HostCall.Unlock]
    {
      calls := calls + [HostCall.Unlock];
    }

    method StartUndo(queue: string)
      modifies this`calls
      ensures calls == old(calls) + [HostCall.StartUndo(queue)]
    {
      calls := calls + [HostCall.StartUndo(queue)];
    }

    method EndUndo(keep: bool)
      modifies this`calls
      ensures calls == old(calls) + [HostCall.EndUndo(keep)]
    {
      calls := calls + [HostCall.EndUndo(keep)];
    }

    /** `comp.SetAttrs(attrs)` over the frame-range attributes. */
    method SetAttrs(attrs: RangeAttrs)
      modifies this`range, this`calls
      ensures range == ApplyRange(old(range), attrs)
      ensures calls == old(calls) + [SetAttrsCall(attrs)]
    {
      range := ApplyRange(range, attrs);
      calls := calls + [SetAttrsCall(attrs)];
    }

    /** `comp.SetPrefs({"Comp.FrameFormat.<k>": v, ...})`. */
    method SetFrameFormat(prefs: map<string, real>)
      modifies this`frameFormat, this`calls
      ensures frameFormat == old(frameFormat) + prefs
      ensures calls == old(calls) + [SetPrefsCall(prefs)]
    {
      frameFormat := frameFormat + prefs;
      calls := calls + [SetPrefsCall(prefs)];
    }

    /** `comp.SetData(".".join(path), x)`. */
    method SetData(path: seq<string>, x: Value)
      modifies this`data
      ensures data == Set(old(data), path, x)
    {
      data := Set(data, path, x);
    }

    /** `comp.Render(...)`; what the host answers is `result`. */
    method Render(start: int, end: int, flags: Option<int>, result: Value) returns (r: Value)
      modifies this`calls
      ensures r == result
      ensures calls == old(calls) + [RenderCall(start, end, flags)]
    {
      calls := calls + [RenderCall(start, end, flags)];
      r := result;
    }

    /** `comp.AddTool(kind, -32768, -32768)`: a new tool at the end of the tool list. */
    method AddTool(kind: string, name: string) returns (t: Tool)
      modifies this`tools, this`calls
      ensures fresh(t) && fresh(t.comments)
      ensures t.id == kind && t.name == name && !t.passThrough
      ensures t.data == Dict(map[]) && t.inputs == map[] && t.writes == []
      ensures tools == old(tools) + [t]
      ensures calls == old(calls) + [AddToolCall(kind)]
    {
      t := new Tool(kind, name);
      tools := tools + [t];
      calls := calls + [AddToolCall(kind)];
    }

    /** `tool.Delete()`: the tool leaves the tool list (its first occurrence). */
    method Delete(t: Tool)
      modifies this`tools, this`calls
      ensures tools == RemoveFirst(old(tools), t)
      ensures calls == old(calls) + [DeleteCall(t.name)]
    {
      tools := RemoveFirst(tools, t);
      calls := calls + [DeleteCall(t.name)];
    }
  }

  /** The sequence without the first occurrence of `x`, as Python's
      `list.remove`. When `x` is absent the model leaves the sequence as it is,
      where `list.remove` would raise `ValueError`; `Comp.Delete` uses it for
      a host call, whose failure is not modelled. */
  function RemoveFirst<T(==)>(s: seq<T>, x: T): (r: seq<T>)
    ensures x in s ==> |r| == |s| - 1
    ensures x !in s ==> r == s
    decreases |s|
  {
    if s == [] then []
    else
      assert s == [s[0]] + s[1..];
      if s[0] == x then s[1..]
      else [s[0]] + RemoveFirst(s[1..], x)
  }

  /** `list.remove` takes exactly one occurrence away, when there is one. */
  lemma {:induction false} RemoveFirstCount<T>(s: seq<T>, x: T)
    ensures multiset(RemoveFirst(s, x)) == multiset(s) - multiset{x}
    decreases |s|
  {
    if s != [] {
      assert s == [s[0]] + s[1..];
      if s[0] != x {
        RemoveFirstCount(s[1..], x);
      }
    }
  }

  /** The sequence after removing the first occurrence of each of `xs`, in
      order (a loop of `list.remove`). */
  function RemovedAll<T(==)>(s: seq<T>, xs: seq<T>): seq<T>
    decreases |xs|
  {
    if xs == [] then s else RemoveFirst(RemovedAll(s, xs[..|xs| - 1]), xs[|xs| - 1])
  }

  /** One more removal at the end of the loop. */
  lemma RemovedAllSnoc<T>(s: seq<T>, xs: seq<T>, n: nat)
    requires n < |xs|
    ensures RemovedAll(s, xs[..n + 1]) == RemoveFirst(RemovedAll(s, xs[..n]), xs[n])
  {
    assert xs[..n + 1][..n] == xs[..n];
  }

  /** One more removal appended to the list of removals. */
  lemma RemovedAllAppend<T>(s: seq<T>, xs: seq<T>, x: T)
    ensures RemovedAll(s, xs + [x]) == RemoveFirst(RemovedAll(s, xs), x)
  {
    assert (xs + [x])[..|xs|] == xs;
  }

  /** Each removal takes one occurrence away, when there is one. */
  lemma {:induction false} RemovedAllCount<T>(s: seq<T>, xs: seq<T>)
    ensures multiset(RemovedAll(s, xs)) == multiset(s) - multiset(xs)
    decreases |xs|
  {
    if xs != [] {
      var init, x := xs[..|xs| - 1], xs[|xs| - 1];
      RemovedAllCount(s, init);
      RemoveFirstCount(RemovedAll(s, init), x);
      assert multiset(xs) == multiset(init) + multiset{x} by { assert xs == init + [x]; }
      MinusMinus(multiset(s), multiset(init), multiset{x});
    }
  }

  /** Taking away `b` and then `c` is taking away both. */
  lemma MinusMinus<T>(a: multiset<T>, b: multiset<T>, c: multiset<T>)
    ensures a - b - c == a - (b + c)
  {
    assert forall y :: (a - b - c)[y] == (a - (b + c))[y];
  }

  /** From a list without repeats, every removed element is gone. */
  lemma RemovedAllGone<T>(s: seq<T>, xs: seq<T>)
    requires forall x :: multiset(s)[x] <= 1
    ensures forall x :: x in xs ==> x !in RemovedAll(s, xs)
  {
    RemovedAllCount(s, xs);
    forall x | x in xs
      ensures x !in RemovedAll(s, xs)
    {
      assert multiset(xs)[x] >= 1 && multiset(s)[x] <= 1;
      assert multiset(RemovedAll(s, xs))[x] == 0;
    }
  }
}
