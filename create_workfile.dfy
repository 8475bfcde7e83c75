/** The workfile auto-creator: one `workfile` instance per comp, stored in the
    comp's `openpype_workfile` table, collected back from it, and kept in
    step with the current folder and task. */
module CreateWorkfile {
  import opened Wrappers
  import opened HostData
  import opened Host
  import opened Creation

  const Identifier := "workfile"
  const ProductType := "workfile"
  const DefaultVariant := "Main"

  /** The comp data key the instance is stored under. */
  const DataKey := "openpype_workfile"

  // ---------------------------------------------------------------------
  // collect_instances

  /** The product name of stored workfile data: `productName`, or the
      older `subset` key when `productName` is missing or `None`. A missing
      `subset` is the `KeyError` of the source; a value that is not a string
      is rejected. */
  function StoredProductName(data: map<string, Value>): (r: Result<string, string>)
    ensures "productName" in data && data["productName"].Str? ==> r == Success(data["productName"].s)
    ensures ("productName" !in data || data["productName"] == Null) && "subset" in data && data["subset"].Str? ==>
      r == Success(data["subset"].s)
    ensures ("productName" !in data || data["productName"] == Null) && "subset" !in data ==> r.Failure?
  {
    var v := if "productName" in data then data["productName"] else Null;
    if v != Null then
      (if v.Str? then Success(v.s) else Failure("productName is not a string"))
    else if "subset" !in data then Failure("subset")
    else if data["subset"].Str? then Success(data["subset"].s)
    else Failure("subset is not a string")
  }

  /** `collect_instances()` on the current comp: nothing when the comp holds
      no (or empty) workfile data; otherwise one instance of that data,
      backed by the comp, added to the context. */
  method CollectInstances(context: CreateContext, comp: Comp) returns (error: Option<string>, inst: Option<CreatedInstance>)
    modifies context`instances
    ensures var stored := comp.GetData([DataKey]);
      (stored.None? || !Truthy(stored.value)) ==> error.None? && inst.None? && context.instances == old(context.instances)
    ensures error.Some? ==> inst.None? && context.instances == old(context.instances)
    ensures inst.Some? ==>
      var stored := comp.GetData([DataKey]);
      stored.Some? && stored.value.Dict? && stored.value.entries != map[] &&
      StoredProductName(stored.value.entries).Success? &&
      fresh(inst.value) && context.instances == old(context.instances) + [inst.value] &&
      inst.value.productType == ProductType && inst.value.creatorIdentifier == Identifier &&
      inst.value.productName == StoredProductName(stored.value.entries).value &&
      inst.value.data == stored.value.entries && inst.value.comp == Some(comp)
    ensures (var stored := comp.GetData([DataKey]);
      stored.Some? && stored.value.Dict? && stored.value.entries != map[] &&
      StoredProductName(stored.value.entries).Success?) ==> inst.Some?
  {
    var stored := comp.GetData([DataKey]);
    if stored.None? || !Truthy(stored.value) {
      return None, None;
    }
    if !stored.value.Dict? {
      return Some("workfile data is not a table"), None;
    }
    var data := stored.value.entries;
    var productName := StoredProductName(data);
    if productName.Failure? {
      return Some(productName.error), None;
    }
    var instance := new CreatedInstance(ProductType, productName.value, Identifier, data);
    instance.comp := Some(comp);
    context.Add(instance);
    error, inst := None, Some(instance);
  }

  // ---------------------------------------------------------------------
  // update_instances

  /** Whether an instance's comp can still be written: it has one and the
      user has not closed it (`closed`). */
  predicate Alive(inst: CreatedInstance, closed: set<Comp>)
    reads inst
  {
    inst.comp.Some? && inst.comp.value !in closed
  }

  /** The comps of the instances that can be written. */
  function AliveComps(updates: seq<CreatedInstance>, closed: set<Comp>): set<Comp>
    reads set i | i in updates
  {
    set i | i in updates && Alive(i, closed) :: i.comp.value
  }

  /** The data last stored into `c` by the instances, in order; `None` when
      none of them writes to `c`. */
  function LastStored(updates: seq<CreatedInstance>, c: Comp, closed: set<Comp>): (r: Option<map<string, Value>>)
    reads set i | i in updates
    ensures r.None? <==> forall i :: 0 <= i < |updates| ==> !(Alive(updates[i], closed) && updates[i].comp.value == c)
    decreases |updates|
  {
    if updates == [] then None
    else
      var last := updates[|updates| - 1];
      if Alive(last, closed) && last.comp.value == c then Some(last.data)
      else
        var r := LastStored(updates[..|updates| - 1], c, closed);
        assert forall i :: 0 <= i < |updates| - 1 ==> updates[..|updates| - 1][i] == updates[i];
        r
  }

  /** A comp's root table once `d` is written under the workfile key
      (`None`: not written). */
  function StoredRoot(root: Value, d: Option<map<string, Value>>): Value {
    match d
    case None => root
    case Some(m) => Set(root, [DataKey], Dict(m))
  }

  /** Writing the workfile key twice keeps the second write. */
  lemma {:induction false} SetTwice(root: Value, a: Value, b: Value)
    ensures Set(Set(root, [DataKey], a), [DataKey], b) == Set(root, [DataKey], b)
  {
    var m := if root.Dict? then root.entries else map[];
    assert Set(root, [DataKey], a) == Dict(m[DataKey := a]);
    assert Set(Set(root, [DataKey], a), [DataKey], b) == Dict(m[DataKey := a][DataKey := b]);
    assert Set(root, [DataKey], b) == Dict(m[DataKey := b]);
  }

  /** One more instance at the end of the loop: its write, when its comp is
      `c` and alive, overrides what earlier ones stored. */
  lemma StoredRootSnoc(updates: seq<CreatedInstance>, n: nat, c: Comp, closed: set<Comp>, root: Value)
    requires n < |updates|
    ensures StoredRoot(root, LastStored(updates[..n + 1], c, closed)) ==
      if Alive(updates[n], closed) && updates[n].comp.value == c
      then Set(StoredRoot(root, LastStored(updates[..n], c, closed)), [DataKey], Dict(updates[n].data))
      else StoredRoot(root, LastStored(updates[..n], c, closed))
  {
    assert updates[..n + 1][..n] == updates[..n];
    if Alive(updates[n], closed) && updates[n].comp.value == c {
      match LastStored(updates[..n], c, closed)
      case None =>
      case Some(m) => SetTwice(root, Dict(m), Dict(updates[n].data));
    }
  }

  /** `update_instances(update_list)`: each instance whose comp is alive has
      its data written under `openpype_workfile` of that comp, in order, so
      a comp ends with the last such instance's data; the rest are skipped.
      `data_to_store()` is the instance's data. */
  method UpdateInstances(updates: seq<CreatedInstance>, closed: set<Comp>)
    requires forall i :: 0 <= i < |updates| ==> updates[i].comp.Some?
    modifies AliveComps(updates, closed)`data
    ensures forall c :: c in AliveComps(updates, closed) ==>
      c.data == StoredRoot(old(c.data), LastStored(updates, c, closed))
  {
    for n := 0 to |updates|
      invariant forall c :: c in AliveComps(updates, closed) ==>
        c.data == StoredRoot(old(c.data), LastStored(updates[..n], c, closed))
    {
      forall c | c in AliveComps(updates, closed)
        ensures StoredRoot(old(c.data), LastStored(updates[..n + 1], c, closed)) ==
          if Alive(updates[n], closed) && updates[n].comp.value == c
          then Set(StoredRoot(old(c.data), LastStored(updates[..n], c, closed)), [DataKey], Dict(updates[n].data))
          else StoredRoot(old(c.data), LastStored(updates[..n], c, closed))
      {
        StoredRootSnoc(updates, n, c, closed, old(c.data));
      }
      UpdateNext(updates, n, closed);
    }
    assert updates[..|updates|] == updates;
  }

  /** Iteration `n` of `update_instances`: the instance's data goes to its
      comp when that comp is alive. */
  method UpdateNext(updates: seq<CreatedInstance>, n: nat, closed: set<Comp>)
    requires n < |updates| && updates[n].comp.Some?
    modifies AliveComps(updates, closed)`data
    ensures forall c :: c in AliveComps(updates, closed) ==>
      c.data == if Alive(updates[n], closed) && updates[n].comp.value == c
        then Set(old(c.data), [DataKey], Dict(updates[n].data))
        else old(c.data)
  {
    var inst := updates[n];
    if Alive(inst, closed) {
      inst.comp.value.SetData([DataKey], Dict(inst.data));
    }
  }

  /** What `update_instances` stores, `collect_instances` reads back: the
      same data, and the same product name when it is stored as a string. */
  lemma UpdateThenCollect(root: Value, d: map<string, Value>)
    ensures Get(StoredRoot(root, Some(d)), [DataKey]) == Some(Dict(d))
    ensures "productName" in d && d["productName"].Str? ==> StoredProductName(d) == Success(d["productName"].s)
  {
    GetSetSame(root, [DataKey], Dict(d));
  }

  // ---------------------------------------------------------------------
  // create

  /** The first instance of the workfile product type, if any. */
  method FindExisting(instances: seq<CreatedInstance>) returns (r: Option<nat>)
    ensures r.Some? ==> r.value < |instances| && instances[r.value].productType == ProductType
    ensures r.Some? ==> forall i :: 0 <= i < r.value ==> instances[i].productType != ProductType
    ensures r.None? ==> forall i :: 0 <= i < |instances| ==> instances[i].productType != ProductType
  {
    for n := 0 to |instances|
      invariant forall i :: 0 <= i < n ==> instances[i].productType != ProductType
    {
      if instances[n].productType == ProductType {
        return Some(n);
      }
    }
    return None;
  }

  /** The data of a new workfile instance: folder, task and the default
      variant, overridden by the creator's dynamic data. */
  function NewData(folderPath: string, task: string, dynamicData: map<string, Value>): (d: map<string, Value>)
    ensures d.Keys == {"folderPath", "task", "variant"} + dynamicData.Keys
    ensures forall k :: k in dynamicData ==> d[k] == dynamicData[k]
    ensures "folderPath" !in dynamicData ==> d["folderPath"] == Str(folderPath)
    ensures "task" !in dynamicData ==> d["task"] == Str(task)
    ensures "variant" !in dynamicData ==> d["variant"] == Str(DefaultVariant)
  {
    map["folderPath" := Str(folderPath), "task" := Str(task), "variant" := Str(DefaultVariant)] + dynamicData
  }

  /** Whether an instance's stored folder and task already are the current
      ones (a missing key counts as different). */
  predicate InContext(data: map<string, Value>, folderPath: string, task: string) {
    "folderPath" in data && data["folderPath"] == Str(folderPath) && "task" in data && data["task"] == Str(task)
  }

  /** `create()`: without a current comp nothing happens. Otherwise, when
      the context has no workfile instance, one is added for the current
      folder, task and default variant, backed by the comp; when the first
      one (`existing`) belongs to another folder or task, it is moved to the
      current ones and renamed; otherwise nothing changes. `productName` is
      what `get_product_name` answers for the current context and
      `dynamicData` what `get_dynamic_data` answers. */
  method Create(context: CreateContext, comp: Option<Comp>, folderPath: string, task: string,
                productName: string, dynamicData: map<string, Value>)
    returns (added: Option<CreatedInstance>, existing: Option<nat>)
    modifies context`instances, context.instances
    ensures comp.None? ==> added.None? && existing.None? && context.instances == old(context.instances)
    ensures comp.None? ==> forall i :: 0 <= i < |context.instances| ==> unchanged(context.instances[i])
    ensures added.Some? ==> comp.Some? && existing.None?
    ensures comp.Some? ==> (existing.None? <==> added.Some?)
    ensures existing.None? && comp.Some? ==>
      (forall i :: 0 <= i < |old(context.instances)| ==> old(context.instances)[i].productType != ProductType)
    ensures added.Some? ==>
      fresh(added.value) && context.instances == old(context.instances) + [added.value] &&
      added.value.productType == ProductType && added.value.productName == productName &&
      added.value.data == NewData(folderPath, task, dynamicData) && added.value.comp == comp
    ensures existing.Some? ==>
      var k := existing.value;
      context.instances == old(context.instances) && k < |context.instances| &&
      context.instances[k].productType == ProductType &&
      (forall i :: 0 <= i < k ==> context.instances[i].productType != ProductType) &&
      (forall i :: 0 <= i < |context.instances| && context.instances[i] != context.instances[k] ==>
        unchanged(context.instances[i]))
    ensures existing.Some? ==>
      var inst := context.instances[existing.value];
      InContext(inst.data, folderPath, task) &&
      inst.data == Moved(old(inst.data), folderPath, task, productName)
  {
    if comp.None? {
      return None, None;
    }
    existing := FindExisting(context.instances);
    if existing.None? {
      var inst := new CreatedInstance(ProductType, productName, Identifier, NewData(folderPath, task, dynamicData));
      inst.comp := comp;
      context.Add(inst);
      return Some(inst), None;
    }
    MoveToContext(context.instances[existing.value], folderPath, task, productName);
    added := None;
  }

  /** The stored data of an existing workfile instance after `create`: moved
      to the current folder and task, and renamed, unless it already is
      there. */
  function Moved(data: map<string, Value>, folderPath: string, task: string, productName: string): (r: map<string, Value>)
    ensures InContext(r, folderPath, task)
    ensures InContext(data, folderPath, task) ==> r == data
    ensures !InContext(data, folderPath, task) ==>
      r.Keys == data.Keys + {"folderPath", "task", "productName"} && r["productName"] == Str(productName) &&
      forall k :: k in data && k !in {"folderPath", "task", "productName"} ==> r[k] == data[k]
  {
    if InContext(data, folderPath, task) then data
    else data["folderPath" := Str(folderPath)]["task" := Str(task)]["productName" := Str(productName)]
  }

  /** The `elif` branch of `create`. */
  method MoveToContext(inst: CreatedInstance, folderPath: string, task: string, productName: string)
    modifies inst`data
    ensures inst.data == Moved(old(inst.data), folderPath, task, productName)
  {
    if !InContext(inst.data, folderPath, task) {
      inst.Put("folderPath", Str(folderPath));
      inst.Put("task", Str(task));
      inst.Put("productName", Str(productName));
    }
  }
}
