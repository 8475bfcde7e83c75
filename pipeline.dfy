/** The host-side pipeline: containers imprinted on loaded tools and parsed
    back, the listing of containers, the bridge from Fusion notifications to
    pipeline events (the mapping and the poller's drain loop), the flag that
    notices a save into a new context, and the workfile and context-data
    accessors. */
module FusionPipeline {
  import opened Wrappers
  import opened HostData
  import opened Host
  import Strings
  import Paths
  import FusionLib

  // ---------------------------------------------------------------------
  // imprint_container / parse_container / ls

  /** `AVALON_CONTAINER_ID` of the pipeline core. */
  const AvalonContainerId := "pyblish.avalon.container"
  const ContainerSchema := "openpype:container-2.0"

  /** What the loaders take from the load context. */
  datatype LoadContext = LoadContext(representationId: string, projectName: string, folderName: string)

  /** Python's `str(x)` for a string or `None`. */
  function PyStr(x: Option<string>): string {
    match x
    case Some(s) => s
    case None => "None"
  }

  /** The seven `avalon.<key>` entries, in the order they are written. */
  function ContainerEntries(name: Option<string>, namespace: Option<string>, loader: Option<string>,
                            context: LoadContext): seq<(string, Value)>
  {
    [("schema", Str(ContainerSchema)),
     ("id", Str(AvalonContainerId)),
     ("name", Str(PyStr(name))),
     ("namespace", Str(PyStr(namespace))),
     ("loader", Str(PyStr(loader))),
     ("representation", Str(context.representationId)),
     ("project_name", Str(context.projectName))]
  }

  /** The same entries as a dictionary. */
  function ImprintedFields(name: Option<string>, namespace: Option<string>, loader: Option<string>,
                           context: LoadContext): map<string, Value>
  {
    map["schema" := Str(ContainerSchema),
        "id" := Str(AvalonContainerId),
        "name" := Str(PyStr(name)),
        "namespace" := Str(PyStr(namespace)),
        "loader" := Str(PyStr(loader)),
        "representation" := Str(context.representationId),
        "project_name" := Str(context.projectName)]
  }

  lemma ContainerEntriesMap(name: Option<string>, namespace: Option<string>, loader: Option<string>,
                            context: LoadContext)
    ensures EntryMap(ContainerEntries(name, namespace, loader, context))
      == ImprintedFields(name, namespace, loader, context)
  {
    var e := ContainerEntries(name, namespace, loader, context);
    assert e[..0] == [];
    assert e[..1][..0] == e[..0];
    assert EntryMap(e[..1]) == EntryMap(e[..0])[e[0].0 := e[0].1];
    assert e[..2][..1] == e[..1];
    assert EntryMap(e[..2]) == EntryMap(e[..1])[e[1].0 := e[1].1];
    assert e[..3][..2] == e[..2];
    assert EntryMap(e[..3]) == EntryMap(e[..2])[e[2].0 := e[2].1];
    assert e[..4][..3] == e[..3];
    assert EntryMap(e[..4]) == EntryMap(e[..3])[e[3].0 := e[3].1];
    assert e[..5][..4] == e[..4];
    assert EntryMap(e[..5]) == EntryMap(e[..4])[e[4].0 := e[4].1];
    assert e[..6][..5] == e[..5];
    assert EntryMap(e[..6]) == EntryMap(e[..5])[e[5].0 := e[5].1];
    assert e[..7][..6] == e[..6];
    assert EntryMap(e[..7]) == EntryMap(e[..6])[e[6].0 := e[6].1];
    assert e[..7] == e;
  }

  /** The tool writes of a sequence of `avalon.<key>` entries. */
  function DataWrites(ns: string, entries: seq<(string, Value)>): (w: seq<ToolWrite>)
    ensures |w| == |entries|
    ensures forall i :: 0 <= i < |entries| ==> w[i] == DataWrite([ns, entries[i].0], entries[i].1)
    decreases |entries|
  {
    if entries == [] then []
    else
      var last := entries[|entries| - 1];
      DataWrites(ns, entries[..|entries| - 1]) + [DataWrite([ns, last.0], last.1)]
  }

  /** `imprint_container(tool, name, namespace, context, loader)`: exactly the
      seven `SetData("avalon.<key>", value)` calls, in order. */
  method ImprintContainer(tool: Tool, name: Option<string>, namespace: Option<string>,
                          context: LoadContext, loader: Option<string>)
    modifies tool`data, tool`writes
    ensures tool.data == SetAll(old(tool.data), "avalon", ContainerEntries(name, namespace, loader, context))
    ensures tool.writes == old(tool.writes) + DataWrites("avalon", ContainerEntries(name, namespace, loader, context))
  {
    SetEntries(tool, "avalon", ContainerEntries(name, namespace, loader, context));
  }

  /** The loop of `imprint_container`: one `SetData("<ns>.<key>", value)` per
      entry, in order. */
  method SetEntries(tool: Tool, ns: string, entries: seq<(string, Value)>)
    modifies tool`data, tool`writes
    ensures tool.data == SetAll(old(tool.data), ns, entries)
    ensures tool.writes == old(tool.writes) + DataWrites(ns, entries)
  {
    ghost var data0, writes0 := tool.data, tool.writes;
    for i := 0 to |entries|
      invariant tool.data == SetAll(data0, ns, entries[..i])
      invariant tool.writes == writes0 + DataWrites(ns, entries[..i])
    {
      var (key, value) := entries[i];
      tool.SetData([ns, key], value);
      assert entries[..i + 1][..i] == entries[..i];
    }
    assert entries[..|entries|] == entries;
  }

  /** Imprinting merges the seven entries into the tool's `avalon` table,
      keeping whatever else it held. */
  lemma ImprintMerges(data: Value, name: Option<string>, namespace: Option<string>, loader: Option<string>,
                      context: LoadContext)
    ensures Bag(SetAll(data, "avalon", ContainerEntries(name, namespace, loader, context)), "avalon")
      == Bag(data, "avalon") + ImprintedFields(name, namespace, loader, context)
  {
    SetAllBag(data, "avalon", ContainerEntries(name, namespace, loader, context));
    ContainerEntriesMap(name, namespace, loader, context);
  }

  /** The keys a container must carry. */
  const RequiredKeys: set<string> := {"schema", "id", "name", "namespace", "loader", "representation"}

  /** `parse_container` on a tool's metadata store: `None` unless the
      `avalon` entry is a dictionary holding every required key; otherwise
      the required keys and, when present, `project_name`. */
  function ParseAvalon(data: Value): (r: Option<map<string, Value>>)
    ensures r.Some? ==> Get(data, ["avalon"]).Some? && Get(data, ["avalon"]).value.Dict?
    ensures r.Some? ==> var m := Get(data, ["avalon"]).value.entries;
      RequiredKeys <= m.Keys &&
      r.value.Keys == RequiredKeys + (if "project_name" in m then {"project_name"} else {}) &&
      forall k :: k in r.value ==> r.value[k] == m[k]
  {
    match Get(data, ["avalon"])
    case Some(Dict(m)) =>
      if RequiredKeys <= m.Keys then
        var required := map k | k in RequiredKeys :: m[k];
        Some(if "project_name" in m then required["project_name" := m["project_name"]] else required)
      else None
    case _ => None
  }

  /** A parsed container: the imprinted keys, `objectName` and `_tool`. */
  datatype Container = Container(fields: map<string, Value>, objectName: string, tool: Tool)

  /** `parse_container(tool)`. */
  function ContainerOf(t: Tool): (r: Option<Container>)
    reads t
    ensures r.Some? <==> ParseAvalon(t.data).Some?
    ensures r.Some? ==> r.value == Container(ParseAvalon(t.data).value, t.name, t)
  {
    match ParseAvalon(t.data)
    case Some(m) => Some(Container(m, t.name, t))
    case None => None
  }

  /** A store whose `avalon` table holds every required key and a
      `project_name` parses to exactly those seven entries. */
  lemma ParseFullTable(data: Value, m: map<string, Value>)
    requires Get(data, ["avalon"]) == Some(Dict(m))
    requires RequiredKeys <= m.Keys && "project_name" in m
    ensures ParseAvalon(data) == Some(map k | k in RequiredKeys + {"project_name"} :: m[k])
  {
    var required := map k | k in RequiredKeys :: m[k];
    assert required["project_name" := m["project_name"]] == map k | k in RequiredKeys + {"project_name"} :: m[k];
  }

  /** Parsing what `imprint_container` wrote gives back exactly the seven
      imprinted values, whatever else the store held. */
  lemma ParseAfterImprint(data: Value, name: Option<string>, namespace: Option<string>,
                          loader: Option<string>, context: LoadContext)
    ensures ParseAvalon(SetAll(data, "avalon", ContainerEntries(name, namespace, loader, context)))
      == Some(ImprintedFields(name, namespace, loader, context))
  {
    var entries := ContainerEntries(name, namespace, loader, context);
    SetAllBag(data, "avalon", entries);
    SetAllTable(data, "avalon", entries);
    ContainerEntriesMap(name, namespace, loader, context);
    var fields := ImprintedFields(name, namespace, loader, context);
    var m := Bag(data, "avalon") + fields;
    assert fields.Keys == RequiredKeys + {"project_name"};
    ParseFullTable(SetAll(data, "avalon", entries), m);
    assert (map k | k in fields.Keys :: m[k]) == fields;
  }

  /** The metadata key the loaders' `update` rewrites: `avalon.representation`. */
  const RepresentationKey: seq<string> := ["avalon", "representation"]

  /** Rewriting `avalon.representation` of a container changes that one
      parsed field and keeps every other. */
  lemma ParseAfterRepresentationUpdate(data: Value, id: string)
    requires ParseAvalon(data).Some?
    ensures ParseAvalon(Set(data, RepresentationKey, Str(id)))
      == Some(ParseAvalon(data).value["representation" := Str(id)])
  {
    var m := Get(data, ["avalon"]).value.entries;
    SetInBag(data, "avalon", "representation", Str(id));
    assert Bag(data, "avalon") == m;
    var m' := m["representation" := Str(id)];
    assert Get(Set(data, RepresentationKey, Str(id)), ["avalon"]) == Some(Dict(m'));
    var r := ParseAvalon(Set(data, RepresentationKey, Str(id))).value;
    assert r == ParseAvalon(data).value["representation" := Str(id)];
  }

  /** `tool.SetData("avalon.representation", id)`, as both loaders' `update`
      does it: a container keeps every parsed field but `representation`. */
  method SetRepresentation(tool: Tool, id: string)
    modifies tool`data, tool`writes
    ensures tool.data == Set(old(tool.data), RepresentationKey, Str(id))
    ensures tool.writes == old(tool.writes) + [DataWrite(RepresentationKey, Str(id))]
    ensures ParseAvalon(old(tool.data)).Some? ==>
      ParseAvalon(tool.data) == Some(ParseAvalon(old(tool.data)).value["representation" := Str(id)])
  {
    if ParseAvalon(tool.data).Some? {
      ParseAfterRepresentationUpdate(tool.data, id);
    }
    tool.SetData(RepresentationKey, Str(id));
  }

  /** A store whose `avalon` table lacks a required key does not parse. */
  lemma ParseRejectsMissingKey(data: Value, key: string)
    requires key in RequiredKeys
    requires Get(data, ["avalon"]).Some? && Get(data, ["avalon"]).value.Dict?
    requires key !in Get(data, ["avalon"]).value.entries
    ensures ParseAvalon(data) == None
  {
  }

  /** A store whose `avalon` entry is missing or not a table does not parse. */
  lemma ParseRejectsNonTable(data: Value)
    requires Get(data, ["avalon"]).None? || !Get(data, ["avalon"]).value.Dict?
    ensures ParseAvalon(data) == None
  {
  }

  /** A container that lost only its `loader` entry is rejected. */
  lemma ParseRejectsWithoutLoader(data: Value, name: Option<string>, namespace: Option<string>,
                                  loader: Option<string>, context: LoadContext)
    ensures ParseAvalon(Dict(map["avalon" := Dict(ImprintedFields(name, namespace, loader, context) - {"loader"})])) == None
  {
    var d := Dict(map["avalon" := Dict(ImprintedFields(name, namespace, loader, context) - {"loader"})]);
    assert ["avalon"][1..] == [];
    assert Get(d, ["avalon"]) == Some(Dict(ImprintedFields(name, namespace, loader, context) - {"loader"}));
    ParseRejectsMissingKey(d, "loader");
  }

  /** `parse_container` applied to each tool of a list. */
  function Parsed(tools: seq<Tool>): (r: seq<Option<Container>>)
    reads set t | t in tools
    ensures |r| == |tools|
    ensures forall i :: 0 <= i < |tools| ==> r[i] == ContainerOf(tools[i])
    decreases |tools|
  {
    if tools == [] then [] else [ContainerOf(tools[0])] + Parsed(tools[1..])
  }

  /** The present values of a sequence of options, in order. */
  function Somes<T>(xs: seq<Option<T>>): (r: seq<T>)
    ensures |r| <= |xs|
    decreases |xs|
  {
    if xs == [] then []
    else
      var init := Somes(xs[..|xs| - 1]);
      match xs[|xs| - 1]
      case Some(x) => init + [x]
      case None => init
  }

  lemma {:induction false} SomesExactly<T>(xs: seq<Option<T>>, x: T)
    ensures x in Somes(xs) <==> Some(x) in xs
    decreases |xs|
  {
    if xs != [] {
      var init := xs[..|xs| - 1];
      SomesExactly(init, x);
      assert xs == init + [xs[|xs| - 1]];
    }
  }

  /** The containers of a tool list: the tools that parse, in list order. */
  function Containers(tools: seq<Tool>): (cs: seq<Container>)
    reads set t | t in tools
    ensures |cs| <= |tools|
  {
    Somes(Parsed(tools))
  }

  /** A container is listed exactly when some tool of the list parses to it. */
  lemma ContainersExactly(tools: seq<Tool>, c: Container)
    ensures c in Containers(tools) <==> exists i :: 0 <= i < |tools| && ContainerOf(tools[i]) == Some(c)
  {
    var ps := Parsed(tools);
    SomesExactly(ps, c);
    if Some(c) in ps {
      var i :| 0 <= i < |ps| && ps[i] == Some(c);
      assert ContainerOf(tools[i]) == Some(c);
    }
  }

  /** Every listed container names its own tool and carries that tool's name. */
  lemma ContainersOwnTools(tools: seq<Tool>)
    ensures forall c :: c in Containers(tools) ==> c.tool in tools && c.objectName == c.tool.name
  {
    forall c | c in Containers(tools)
      ensures c.tool in tools && c.objectName == c.tool.name
    {
      ContainersExactly(tools, c);
    }
  }

  /** `ls()`: the containers of the comp's tool list, in the host's order. */
  method Ls(comp: Comp) returns (cs: seq<Container>)
    ensures cs == Containers(comp.tools)
  {
    var tools := comp.tools;
    cs := [];
    ghost var ps := Parsed(tools);
    for i := 0 to |tools|
      invariant cs == Somes(ps[..i])
    {
      assert ps[..i + 1][..i] == ps[..i];
      var c := ContainerOf(tools[i]);
      if c.Some? {
        cs := cs + [c.value];
      }
    }
    assert ps[..|tools|] == ps;
  }

  // ---------------------------------------------------------------------
  // FusionEventHandler._on_event and FusionEventThread.run

  /** A notification from Fusion's UI manager: its `what` and its `Rets`. */
  datatype Notification = Notification(what: string, rets: map<string, Value>)

  /** A pipeline event: its topic and the notification as its data. */
  datatype Emitted = Emitted(topic: string, data: Notification)

  /** `_on_event(event)`: an empty event gives nothing; a save or save-as
      gives "save" only when `Rets.success` is truthy; a new comp gives "new";
      an opened comp gives "open"; anything else gives nothing. */
  function OnEvent(event: Option<Notification>): (r: Option<Emitted>)
    ensures r.Some? ==> event.Some? && r.value.data == event.value
    ensures r.Some? ==> r.value.topic in {"save", "new", "open"}
  {
    match event
    case None => None
    case Some(n) =>
      if n.what in {"Comp_Save", "Comp_SaveAs"} then
        if "success" in n.rets && Truthy(n.rets["success"]) then Some(Emitted("save", n)) else None
      else if n.what == "Comp_New" then Some(Emitted("new", n))
      else if n.what == "Comp_Opened" then Some(Emitted("open", n))
      else None
  }

  /** Which notifications give which topic. */
  lemma OnEventTopics(n: Notification)
    ensures OnEvent(Some(n)).Some? && OnEvent(Some(n)).value.topic == "save" <==>
      n.what in {"Comp_Save", "Comp_SaveAs"} && "success" in n.rets && Truthy(n.rets["success"])
    ensures OnEvent(Some(n)) == Some(Emitted("new", n)) <==> n.what == "Comp_New"
    ensures OnEvent(Some(n)) == Some(Emitted("open", n)) <==> n.what == "Comp_Opened"
    ensures n.what !in {"Comp_Save", "Comp_SaveAs", "Comp_New", "Comp_Opened"} ==> OnEvent(Some(n)) == None
  {
  }

  /** One wake-up of the poller: whether interruption was requested, and
      the answers `get_event(False)` gives in turn (an empty answer, or running
      out of answers, means the queue is empty). */
  datatype Wake = Wake(interrupted: bool, answers: seq<Option<Notification>>)

  /** The notifications one drain forwards: the answers before the first empty one. */
  function Drain(answers: seq<Option<Notification>>): (d: seq<Notification>)
    ensures |d| <= |answers|
    decreases |answers|
  {
    if answers == [] || answers[0].None? then []
    else [answers[0].value] + Drain(answers[1..])
  }

  /** A drain forwards the queued notifications in order and stops at the
      first empty answer. */
  lemma {:induction false} DrainIsFifoPrefix(answers: seq<Option<Notification>>)
    ensures forall i :: 0 <= i < |Drain(answers)| ==> answers[i] == Some(Drain(answers)[i])
    ensures |Drain(answers)| < |answers| ==> answers[|Drain(answers)|] == None
    decreases |answers|
  {
    if answers != [] && answers[0].Some? {
      DrainIsFifoPrefix(answers[1..]);
    }
  }

  /** Everything forwarded over a run: the drains of the wake-ups before the
      first one that finds interruption requested. */
  function Forwarded(wakes: seq<Wake>): seq<Notification>
    decreases |wakes|
  {
    if wakes == [] || wakes[0].interrupted then []
    else Drain(wakes[0].answers) + Forwarded(wakes[1..])
  }

  /** The poll delay: `AYON_FUSION_CALLBACK_INTERVAL` as an integer, 1000 when unset. */
  function CallbackInterval(env: map<string, string>): (r: Result<int, FusionLib.ProbeError>)
    ensures "AYON_FUSION_CALLBACK_INTERVAL" !in env ==> r == Success(1000)
  {
    if "AYON_FUSION_CALLBACK_INTERVAL" in env
    then FusionLib.ToInt(Str(env["AYON_FUSION_CALLBACK_INTERVAL"]), "")
    else Success(1000)
  }

  /** A set interval is read as `int()` reads it: surrounding white space
      is ignored and underscores between digits are dropped. */
  lemma CallbackIntervalText(env: map<string, string>, pre: string, n: nat, post: string)
    requires Strings.AllSpaces(pre) && Strings.AllSpaces(post)
    requires "AYON_FUSION_CALLBACK_INTERVAL" in env
    requires env["AYON_FUSION_CALLBACK_INTERVAL"] == pre + Strings.NatToString(n) + post
    ensures CallbackInterval(env) == Success(n)
  {
    FusionLib.ToIntOfText(n, pre, post, "");
  }

  /** `FusionEventThread.run()` over a finite schedule of wake-ups: nothing
      without the Fusion app or with an unreadable interval; otherwise, at each
      wake-up, stop if interruption was requested, else forward queued
      notifications until the queue answers empty. */
  method Run(appPresent: bool, env: map<string, string>, wakes: seq<Wake>) returns (emitted: seq<Notification>)
    ensures emitted == if appPresent && CallbackInterval(env).Success? then Forwarded(wakes) else []
  {
    emitted := [];
    if !appPresent {
      return;
    }
    var delay := CallbackInterval(env);
    if delay.Failure? {
      return;
    }
    var w := 0;
    while w < |wakes|
      invariant 0 <= w <= |wakes|
      invariant emitted + Forwarded(wakes[w..]) == Forwarded(wakes)
    {
      if wakes[w].interrupted {
        assert Forwarded(wakes[w..]) == [];
        return;
      }
      var drained := DrainEvents(wakes[w].answers);
      assert wakes[w..][1..] == wakes[w + 1..];
      emitted := emitted + drained;
      w := w + 1;
    }
    assert wakes[w..] == [];
  }

  /** The inner loop of `run`: call `get_event(False)` until it answers empty. */
  method DrainEvents(answers: seq<Option<Notification>>) returns (drained: seq<Notification>)
    ensures drained == Drain(answers)
  {
    var j := 0;
    drained := [];
    while true
      invariant 0 <= j <= |answers|
      invariant drained + Drain(answers[j..]) == Drain(answers)
      decreases |answers| - j
    {
      if j == |answers| || answers[j].None? {
        break;
      }
      drained := drained + [answers[j].value];
      assert answers[j..][1..] == answers[j + 1..];
      j := j + 1;
    }
  }

  /** The pipeline events a run produces, in order. */
  function Events(ns: seq<Notification>): seq<Emitted>
    decreases |ns|
  {
    if ns == [] then []
    else
      match OnEvent(Some(ns[0]))
      case Some(e) => [e] + Events(ns[1..])
      case None => Events(ns[1..])
  }

  /** Events keep the order of the notifications they come from: the data of
      the events is a subsequence of the forwarded notifications. */
  lemma {:induction false} EventsInOrder(ns: seq<Notification>)
    ensures |Events(ns)| <= |ns|
    ensures forall e :: e in Events(ns) ==> e.data in ns && e.topic in {"save", "new", "open"}
    decreases |ns|
  {
    if ns != [] {
      EventsInOrder(ns[1..]);
    }
  }

  // ---------------------------------------------------------------------
  // _about_to_save and its callbacks

  /** A POSIX path as `pathlib` sees it: absolute or not, and its components
      without empty and "." parts. */
  function PathParts(p: string): (bool, seq<string>) {
    (|p| > 0 && p[0] == '/', NonTrivial(Strings.Split(p, '/')))
  }

  function NonTrivial(parts: seq<string>): (r: seq<string>)
    ensures forall i :: 0 <= i < |r| ==> r[i] != "" && r[i] != "."
    ensures forall x :: x in r ==> x in parts
    decreases |parts|
  {
    if parts == [] then []
    else if parts[0] == "" || parts[0] == "." then NonTrivial(parts[1..])
    else [parts[0]] + NonTrivial(parts[1..])
  }

  lemma {:induction false} NonTrivialConcat(a: seq<string>, b: seq<string>)
    ensures NonTrivial(a + b) == NonTrivial(a) + NonTrivial(b)
    decreases |a|
  {
    if a == [] {
      assert a + b == b;
    } else {
      assert (a + b)[0] == a[0];
      assert (a + b)[1..] == a[1..] + b;
      NonTrivialConcat(a[1..], b);
    }
  }

  /** `Path(dir) in Path(path).parents`: the same anchoring and a strict
      prefix of the components. */
  predicate IsStrictParent(dir: string, path: string) {
    var (da, dc) := PathParts(dir);
    var (pa, pc) := PathParts(path);
    da == pa && |dc| < |pc| && pc[..|dc|] == dc
  }

  /** No path is its own parent. */
  lemma NotOwnParent(p: string)
    ensures !IsStrictParent(p, p)
  {
  }

  /** A file saved directly in the work directory is below it. */
  lemma FileInDirIsChild(dir: string, name: string)
    requires name != "" && name != "." && '/' !in name
    ensures IsStrictParent(dir, Paths.Join2(dir, name))
  {
    var r := Paths.Join2(dir, name);
    if dir == [] {
      assert r == name;
      OneComponent(name);
      assert Strings.Split(dir, '/') == [""];
    } else if dir[|dir| - 1] == '/' {
      var d := dir[..|dir| - 1];
      assert dir == d + ['/'];
      assert r == d + ['/'] + name;
      AppendComponent(d, name);
      TrailingSlash(d);
      assert r[0] == dir[0];
    } else {
      assert r == dir + ['/'] + name;
      AppendComponent(dir, name);
      assert r[0] == dir[0];
    }
  }

  lemma OneComponent(name: string)
    requires name != "" && name != "." && '/' !in name
    ensures NonTrivial(Strings.Split(name, '/')) == [name]
  {
    Strings.SplitWithoutSep(name, '/');
    assert NonTrivial([name]) == [name] + NonTrivial([]);
  }

  /** Appending `/name` adds one component. */
  lemma AppendComponent(a: string, name: string)
    requires name != "" && name != "." && '/' !in name
    ensures NonTrivial(Strings.Split(a + ['/'] + name, '/')) == NonTrivial(Strings.Split(a, '/')) + [name]
  {
    Strings.SplitAround(a, name, '/');
    OneComponent(name);
    NonTrivialConcat(Strings.Split(a, '/'), Strings.Split(name, '/'));
  }

  /** A trailing slash adds no component. */
  lemma TrailingSlash(a: string)
    ensures NonTrivial(Strings.Split(a + ['/'], '/')) == NonTrivial(Strings.Split(a, '/'))
  {
    assert a + ['/'] == a + ['/'] + "";
    Strings.SplitAround(a, "", '/');
    assert Strings.Split("", '/') == [""];
    NonTrivialConcat(Strings.Split(a, '/'), [""]);
    assert NonTrivial([""]) == [];
  }

  /** The module-global `_about_to_save`. */
  class SaveWatch {
    var aboutToSave: bool

    constructor ()
      ensures !aboutToSave
    {
      aboutToSave := false;
    }

    /** `before_workfile_save`: raise the flag only when the work directory
        is a strict ancestor of the comp's file; never lower it. An unset work
        directory makes `Path(None)` fail, and the flag stays as it was. */
    method BeforeWorkfileSave(comp: Comp, workdir: Option<string>) returns (failed: bool)
      modifies this
      ensures failed <==> workdir.None?
      ensures aboutToSave == (old(aboutToSave) || (workdir.Some? && IsStrictParent(workdir.value, comp.fileName)))
    {
      if workdir.None? {
        return true;
      }
      failed := false;
      if IsStrictParent(workdir.value, comp.fileName) {
        aboutToSave := true;
      }
    }

    /** `on_save`: validate without forcing the repair, then lower the flag. */
    method OnSave(comp: Comp, task: FusionLib.TaskAttrs)
      returns (invalid: seq<FusionLib.Diagnostic>, prompt: Option<FusionLib.Prompt>)
      modifies this, comp`frameFormat, comp`calls
      ensures !aboutToSave
      ensures invalid == FusionLib.Mismatches(task, old(comp.frameFormat))
      ensures comp.frameFormat == old(comp.frameFormat) && comp.calls == old(comp.calls)
      ensures prompt == if invalid == [] then None else Some(FusionLib.Prompt(invalid, FusionLib.RepairPrefs(task)))
    {
      var warnings;
      invalid, warnings, prompt := FusionLib.ValidateCompPrefs(comp, task, false);
      aboutToSave := false;
    }

    /** `on_task_changed`: the reset prompt is shown exactly when the flag is up. */
    method OnTaskChanged() returns (promptReset: bool)
      ensures promptReset == aboutToSave
    {
      promptReset := aboutToSave;
    }
  }

  /** `on_new`: validate the new comp and force the repair. */
  method OnNew(comp: Comp, task: FusionLib.TaskAttrs)
    modifies comp`frameFormat, comp`calls
    ensures FusionLib.Mismatches(task, comp.frameFormat) == []
    ensures FusionLib.Mismatches(task, old(comp.frameFormat)) == [] ==>
      comp.frameFormat == old(comp.frameFormat) && comp.calls == old(comp.calls)
  {
    var invalid, warnings, prompt := FusionLib.ValidateCompPrefs(comp, task, true);
    FusionLib.RepairClearsMismatches(task, old(comp.frameFormat));
  }

  /** `on_after_open`: validate the opened comp without forcing the repair;
      the outdated-content popup appears when the loaded containers are
      outdated (`outdated`, which the pipeline core decides). */
  method OnAfterOpen(comp: Comp, task: FusionLib.TaskAttrs, outdated: bool)
    returns (invalid: seq<FusionLib.Diagnostic>, prompt: Option<FusionLib.Prompt>, popup: bool)
    modifies comp`frameFormat, comp`calls
    ensures invalid == FusionLib.Mismatches(task, old(comp.frameFormat))
    ensures comp.frameFormat == old(comp.frameFormat) && comp.calls == old(comp.calls)
    ensures prompt == if invalid == [] then None else Some(FusionLib.Prompt(invalid, FusionLib.RepairPrefs(task)))
    ensures popup == outdated
  {
    var warnings;
    invalid, warnings, prompt := FusionLib.ValidateCompPrefs(comp, task, false);
    popup := outdated;
  }

  // ---------------------------------------------------------------------
  // FusionHost accessors

  /** `get_current_workfile()`: the comp's file name, or `None` for an unsaved comp. */
  function CurrentWorkfile(fileName: string): (r: Option<string>)
    ensures r == None <==> fileName == ""
    ensures r.Some? ==> r.value == fileName
  {
    if fileName == "" then None else Some(fileName)
  }

  /** `work_root(session)`: `AYON_WORKDIR`, joined with `AVALON_SCENEDIR`
      when that is set and non-empty; a session without `AYON_WORKDIR` fails. */
  function WorkRoot(session: map<string, string>): (r: Result<string, string>)
    ensures r.Failure? <==> "AYON_WORKDIR" !in session
  {
    if "AYON_WORKDIR" !in session then Failure("AYON_WORKDIR")
    else
      var workDir := session["AYON_WORKDIR"];
      if "AVALON_SCENEDIR" in session && session["AVALON_SCENEDIR"] != "" then
        Success(Paths.Join2(workDir, session["AVALON_SCENEDIR"]))
      else Success(workDir)
  }

  /** The work root is the work directory itself without a scene directory,
      and otherwise ends in the scene directory and, when that is relative,
      starts with the work directory. */
  lemma WorkRootShape(session: map<string, string>)
    requires "AYON_WORKDIR" in session
    ensures var w := session["AYON_WORKDIR"];
      var r := WorkRoot(session).value;
      ("AVALON_SCENEDIR" !in session || session["AVALON_SCENEDIR"] == "" ==> r == w) &&
      ("AVALON_SCENEDIR" in session && session["AVALON_SCENEDIR"] != "" ==>
        var s := session["AVALON_SCENEDIR"];
        |s| <= |r| && r[|r| - |s|..] == s &&
        (s[0] != '/' ==> |w| <= |r| && r[..|w|] == w))
  {
  }

  /** `get_context_data()`: the comp's `openpype` entry, or an empty
      dictionary when that is unset or empty. */
  function ContextData(compData: Value): (r: Value)
    ensures Truthy(r) ==> Get(compData, ["openpype"]) == Some(r)
    ensures !Truthy(r) ==> r == Dict(map[])
  {
    match Get(compData, ["openpype"])
    case Some(v) => if Truthy(v) then v else Dict(map[])
    case None => Dict(map[])
  }

  /** `update_context_data(data, changes)`. */
  method UpdateContextData(comp: Comp, data: Value)
    modifies comp`data
    ensures comp.data == Set(old(comp.data), ["openpype"], data)
  {
    comp.SetData(["openpype"], data);
  }

  /** What `update_context_data` stores is what `get_context_data` returns,
      except that an empty value reads back as an empty dictionary. */
  lemma ContextDataRoundTrip(compData: Value, data: Value)
    ensures ContextData(Set(compData, ["openpype"], data)) == if Truthy(data) then data else Dict(map[])
  {
    GetSetSame(compData, ["openpype"], data);
  }
}
