/** The host's scripting values and its per-object metadata store.

    Fusion keeps on every tool (and on the comp) a tree of tables written with
    `SetData("ns.key", value)` and read with `GetData("ns")` or `GetData("ns.key")`.
    The model states that behaviour as an explicit assumption: the store is a
    `Value` tree, a dotted key is a path of segments, `SetData` replaces the value
    at the end of the path (creating tables on the way) and `GetData` follows the
    path. `Bag(root, ns)` is what `GetData("ns")` returns as a dictionary. */
module HostData {
  import opened Wrappers

  datatype Value =
    | Null
    | Bool(b: bool)
    | Int(i: int)
    | Str(s: string)
    | Dict(entries: map<string, Value>)

  /** Python truthiness of a value. */
  predicate Truthy(v: Value) {
    match v
    case Null => false
    case Bool(b) => b
    case Int(i) => i != 0
    case Str(s) => s != ""
    case Dict(m) => |m| != 0
  }

  /** `GetData(".".join(path))`: the value at `path`, or None when a step is missing. */
  function Get(v: Value, path: seq<string>): Option<Value>
    decreases |path|
  {
    if path == [] then Some(v)
    else if v.Dict? && path[0] in v.entries then Get(v.entries[path[0]], path[1..])
    else None
  }

  /** `SetData(".".join(path), x)`: replace the value at `path`; a missing or
      non-table step becomes a table. */
  function Set(v: Value, path: seq<string>, x: Value): Value
    decreases |path|
  {
    if path == [] then x
    else
      var m := if v.Dict? then v.entries else map[];
      var child := if path[0] in m then m[path[0]] else Dict(map[]);
      Dict(m[path[0] := Set(child, path[1..], x)])
  }

  /** The dictionary `GetData(ns)` yields; an absent or non-table entry reads as empty. */
  function Bag(root: Value, ns: string): map<string, Value> {
    match Get(root, [ns])
    case Some(Dict(m)) => m
    case _ => map[]
  }

  /** Reading a longer path is reading its first part, then the rest. */
  lemma {:induction false} GetConcat(v: Value, p: seq<string>, q: seq<string>)
    ensures Get(v, p + q) == match Get(v, p) case Some(w) => Get(w, q) case None => None
    decreases |p|
  {
    if p == [] {
      assert p + q == q;
    } else {
      assert (p + q)[0] == p[0] && (p + q)[1..] == p[1..] + q;
      if v.Dict? && p[0] in v.entries {
        GetConcat(v.entries[p[0]], p[1..], q);
      }
    }
  }

  /** Two paths that part ways somewhere: neither is a prefix of the other. */
  predicate Diverge(p: seq<string>, q: seq<string>) {
    exists i :: 0 <= i < |p| && i < |q| && p[i] != q[i]
  }

  /** Reading a path right after writing it gives the written value. */
  lemma {:induction false} GetSetSame(v: Value, p: seq<string>, x: Value)
    ensures Get(Set(v, p, x), p) == Some(x)
    decreases |p|
  {
    if p != [] {
      var m := if v.Dict? then v.entries else map[];
      var child := if p[0] in m then m[p[0]] else Dict(map[]);
      GetSetSame(child, p[1..], x);
    }
  }

  /** Writing one path leaves every diverging path as it was. */
  lemma {:induction false} GetSetOther(v: Value, p: seq<string>, q: seq<string>, x: Value)
    requires Diverge(p, q)
    ensures Get(Set(v, p, x), q) == Get(v, q)
    decreases |p|
  {
    var i :| 0 <= i < |p| && i < |q| && p[i] != q[i];
    var m := if v.Dict? then v.entries else map[];
    var child := if p[0] in m then m[p[0]] else Dict(map[]);
    if p[0] == q[0] {
      assert i > 0;
      assert p[1..][i - 1] != q[1..][i - 1];
      GetSetOther(child, p[1..], q[1..], x);
      if !(v.Dict? && q[0] in v.entries) {
        GetSetOtherFresh(p[1..], q[1..], x);
      }
    }
  }

  /** A path diverging from a freshly written one is absent from the new table. */
  lemma {:induction false} GetSetOtherFresh(p: seq<string>, q: seq<string>, x: Value)
    requires Diverge(p, q)
    ensures Get(Set(Dict(map[]), p, x), q) == None
    decreases |p|
  {
    var i :| 0 <= i < |p| && i < |q| && p[i] != q[i];
    if p[0] == q[0] {
      assert p[1..][i - 1] != q[1..][i - 1];
      GetSetOtherFresh(p[1..], q[1..], x);
    }
  }

  /** `SetData("ns.key", x)` adds (or replaces) one entry of the bag `GetData("ns")`
      and keeps the rest. */
  lemma SetInBag(root: Value, ns: string, key: string, x: Value)
    ensures Get(Set(root, [ns, key], x), [ns]) == Some(Dict(Bag(root, ns)[key := x]))
    ensures Bag(Set(root, [ns, key], x), ns) == Bag(root, ns)[key := x]
  {
    var path := [ns, key];
    assert path[1..] == [key];
    assert [key][1..] == [];
    assert [ns][1..] == [];
    var m := if root.Dict? then root.entries else map[];
    var child := if ns in m then m[ns] else Dict(map[]);
    var cm := if child.Dict? then child.entries else map[];
    if root.Dict? && ns in root.entries {
      assert Get(root, [ns]) == Get(child, []);
    } else {
      assert Get(root, [ns]) == None;
    }
    assert Bag(root, ns) == cm;
    assert Set(child, [key], x) == Dict(cm[key := x]);
    assert Set(root, path, x) == Dict(m[ns := Dict(cm[key := x])]);
  }

  /** Writing in one namespace leaves the bags of the other namespaces as they were. */
  lemma SetOtherBag(root: Value, ns: string, key: string, other: string, x: Value)
    requires other != ns
    ensures Bag(Set(root, [ns, key], x), other) == Bag(root, other)
  {
    assert Diverge([ns, key], [other]) by { assert [ns, key][0] != [other][0]; }
    GetSetOther(root, [ns, key], [other], x);
  }

  /** The store after writing `ns.<k>` for every pair, in order. */
  function SetAll(root: Value, ns: string, entries: seq<(string, Value)>): Value
    decreases |entries|
  {
    if entries == [] then root
    else
      var last := entries[|entries| - 1];
      Set(SetAll(root, ns, entries[..|entries| - 1]), [ns, last.0], last.1)
  }

  /** The pairs as a dictionary, later pairs winning. */
  function EntryMap<K(==)>(entries: seq<(K, Value)>): map<K, Value>
    decreases |entries|
  {
    if entries == [] then map[]
    else EntryMap(entries[..|entries| - 1])[entries[|entries| - 1].0 := entries[|entries| - 1].1]
  }

  /** Writing a sequence of keys into one namespace merges them into its bag. */
  lemma {:induction false} SetAllBag(root: Value, ns: string, entries: seq<(string, Value)>)
    ensures Bag(SetAll(root, ns, entries), ns) == Bag(root, ns) + EntryMap(entries)
    decreases |entries|
  {
    if entries == [] {
      assert Bag(root, ns) + map[] == Bag(root, ns);
    } else {
      var init, last := entries[..|entries| - 1], entries[|entries| - 1];
      SetInBag(SetAll(root, ns, init), ns, last.0, last.1);
      SetAllBag(root, ns, init);
      var b, e := Bag(root, ns), EntryMap(init);
      assert (b + e)[last.0 := last.1] == b + e[last.0 := last.1];
    }
  }

  /** After at least one write into a namespace, `GetData(ns)` yields its bag
      as a dictionary. */
  lemma SetAllTable(root: Value, ns: string, entries: seq<(string, Value)>)
    requires entries != []
    ensures Get(SetAll(root, ns, entries), [ns]) == Some(Dict(Bag(SetAll(root, ns, entries), ns)))
  {
    var last := entries[|entries| - 1];
    SetInBag(SetAll(root, ns, entries[..|entries| - 1]), ns, last.0, last.1);
  }

  /** Writing a sequence of keys into one namespace leaves other namespaces alone. */
  lemma {:induction false} SetAllOtherBag(root: Value, ns: string, other: string, entries: seq<(string, Value)>)
    requires other != ns
    ensures Bag(SetAll(root, ns, entries), other) == Bag(root, other)
    decreases |entries|
  {
    if entries != [] {
      var init, last := entries[..|entries| - 1], entries[|entries| - 1];
      SetAllOtherBag(root, ns, other, init);
      SetOtherBag(SetAll(root, ns, init), ns, last.0, other, last.1);
    }
  }
}
