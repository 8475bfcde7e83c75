/** The publishing framework's creation objects, as far as this integration
    reads and writes them: a created instance (its stored data, its transient
    back-reference to a tool or comp, its attribute definitions), the create
    context that lists the instances, and the attribute-definition values the
    creators build. The framework's own behaviour is not part of this model. */
module Creation {
  import opened Wrappers
  import opened HostData
  import opened Host

  /** An entry of an enum definition: the stored key and its title. */
  datatype EnumItem = EnumItem(key: string, title: string)

  /** The attribute definitions the creators build (`EnumDef`, `BoolDef`,
      `NumberDef`, `UILabelDef`). */
  datatype AttrDef =
    | EnumDef(key: string, items: seq<EnumItem>, enumDefault: Option<string>, title: string)
    | BoolDef(key: string, boolDefault: bool, title: string)
    | NumberDef(key: string, title: string, numberDefault: int, minimum: int, decimals: int, visible: bool)
    | LabelDef(title: string)

  /** The keys an enum definition offers, in order. */
  function EnumKeys(items: seq<EnumItem>): (r: seq<string>)
    ensures |r| == |items|
    ensures forall i :: 0 <= i < |items| ==> r[i] == items[i].key
  {
    if items == [] then [] else [items[0].key] + EnumKeys(items[1..])
  }

  /** A publish instance of the create context. `tool` and `comp` are its
      transient back-references (`transient_data["tool"]`,
      `transient_data["comp"]`). */
  class CreatedInstance {
    const productType: string
    const creatorIdentifier: string
    var productName: string
    var data: map<string, Value>
    var tool: Option<Tool>
    var comp: Option<Comp>
    var attrDefs: seq<AttrDef>

    constructor (productType: string, productName: string, creatorIdentifier: string, data: map<string, Value>)
      ensures this.productType == productType && this.productName == productName
      ensures this.creatorIdentifier == creatorIdentifier && this.data == data
      ensures tool == None && comp == None && attrDefs == []
    {
      this.productType := productType;
      this.productName := productName;
      this.creatorIdentifier := creatorIdentifier;
      this.data := data;
      tool := None;
      comp := None;
      attrDefs := [];
    }

    /** `instance.get(key)`. */
    function Get(key: string): (r: Option<Value>)
      reads this
      ensures r.Some? <==> key in data
    {
      if key in data then Some(data[key]) else None
    }

    /** `instance[key] = v`. */
    method Put(key: string, v: Value)
      modifies this`data
      ensures data == old(data)[key := v]
    {
      data := data[key := v];
    }

    /** `instance.set_create_attr_defs(defs)`. */
    method SetCreateAttrDefs(defs: seq<AttrDef>)
      modifies this`attrDefs
      ensures attrDefs == defs
    {
      attrDefs := defs;
    }
  }

  /** The create context: the instances the creators have collected or made. */
  class CreateContext {
    var instances: seq<CreatedInstance>

    constructor ()
      ensures instances == []
    {
      instances := [];
    }

    /** `creator._add_instance_to_context(instance)`. */
    method Add(inst: CreatedInstance)
      modifies this`instances
      ensures instances == old(instances) + [inst]
    {
      instances := instances + [inst];
    }

    /** `creator._remove_instance_from_context(instance)`. */
    method Remove(inst: CreatedInstance)
      modifies this`instances
      ensures instances == RemoveFirst(old(instances), inst)
    {
      instances := RemoveFirst(instances, inst);
    }
  }
}
