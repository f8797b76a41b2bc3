/** The process-wide tool registry: `tools` maps a tool name to its handler,
    `tool_descriptions` maps it to its metadata. Both are dicts, so a name
    registered again is overwritten where it stands (last writer wins) and
    the iteration order is the order of first registration.

    Also here: the function-calling schema derived from the metadata.
 */
module ToolRegistry {
  import opened Dicts
  import opened Json
  import opened Dispatcher

  /** `{"description": ..., "params": {param name: param description}}` */
  datatype ToolMeta = ToolMeta(description: string, params: Items<string>)

  /** `{"type": kind, "description": description}` */
  datatype PropertySchema = PropertySchema(kind: string, description: string)

  /** `{"type": kind, "properties": {...}, "required": [...]}` */
  datatype ParametersSchema = ParametersSchema(kind: string, properties: Items<PropertySchema>, required: seq<string>)

  /** `{"name": ..., "description": ..., "parameters": {...}}` */
  datatype ToolSchema = ToolSchema(name: string, description: string, parameters: ParametersSchema)

  /** `params or {}`: None and the empty dict both give the empty dict. */
  function ParamsOrEmpty(params: Option<Items<string>>): (r: Items<string>)
    ensures params.None? ==> r == []
    ensures params.Some? ==> r == params.value
  {
    if params.None? || params.value == [] then [] else params.value
  }

  /** `t` is the schema entry derived from the metadata `meta` of the tool
      `name`: name and description copied, parameters an object whose
      properties are the declared params in declaration order, each typed
      string and carrying its description, and all of them required in the
      same order. */
  ghost predicate Describes(t: ToolSchema, name: string, meta: ToolMeta) {
    && t.name == name
    && t.description == meta.description
    && t.parameters.kind == "object"
    && |t.parameters.properties| == |meta.params|
    && (forall j :: 0 <= j < |meta.params| ==>
          t.parameters.properties[j] == (meta.params[j].0, PropertySchema("string", meta.params[j].1)))
    && t.parameters.required == Keys(meta.params)
  }

  class Registry {
    /** `tools`: name -> handler */
    var tools: Items<Handler>
    /** `tool_descriptions`: name -> metadata */
    var descriptions: Items<ToolMeta>

    /** Both dicts are keyed by the same names in the same order, and every
        params dict, being a dict, has unique keys. */
    ghost predicate Valid()
      reads this
    {
      && UniqueKeys(tools)
      && UniqueKeys(descriptions)
      && Keys(tools) == Keys(descriptions)
      && forall i :: 0 <= i < |descriptions| ==> UniqueKeys(descriptions[i].1.params)
    }

    /** The registry as the module starts it: both dicts empty. */
    constructor ()
      ensures Valid() && tools == [] && descriptions == []
    {
      tools := [];
      descriptions := [];
    }

    /** `register_tool(name, description, params)(func)`: stores the handler
        and the metadata under `name`, and hands `func` back unchanged. */
    method RegisterTool(name: string, description: string, params: Option<Items<string>>, func: Handler)
      returns (f: Handler)
      requires Valid()
      requires params.Some? ==> UniqueKeys(params.value)
      modifies this
      ensures Valid()
      ensures f == func
      ensures tools == Put(old(tools), name, func)
      ensures descriptions == Put(old(descriptions), name, ToolMeta(description, ParamsOrEmpty(params)))
    {
      var meta := ToolMeta(description, ParamsOrEmpty(params));
      PutKeepsUniqueKeys(tools, name, func);
      PutKeepsUniqueKeys(descriptions, name, meta);
      PutSameKeys(tools, descriptions, name, func, meta);
      PutItems(descriptions, name, meta);
      ghost var oldDescriptions := descriptions;
      tools := Put(tools, name, func);
      descriptions := Put(descriptions, name, meta);
      assert forall i :: 0 <= i < |descriptions| ==> UniqueKeys(descriptions[i].1.params) by {
        forall i | 0 <= i < |descriptions| ensures UniqueKeys(descriptions[i].1.params) {
          assert descriptions[i] == (name, meta) || descriptions[i] == oldDescriptions[i];
        }
      }
      f := func;
    }

    /** `get_openai_tool_schema`: one schema entry per registered tool, in
        registration order. */
    method OpenAiToolSchema() returns (schema: seq<ToolSchema>)
      requires Valid()
      ensures |schema| == |descriptions|
      ensures forall i :: 0 <= i < |schema| ==> Describes(schema[i], descriptions[i].0, descriptions[i].1)
    {
      schema := [];
      var i := 0;
      while i < |descriptions|
        invariant 0 <= i <= |descriptions|
        invariant |schema| == i
        invariant forall k :: 0 <= k < i ==> Describes(schema[k], descriptions[k].0, descriptions[k].1)
      {
        var (name, meta) := descriptions[i];
        var properties, required := ParameterProperties(meta.params);
        schema := schema + [ToolSchema(name, meta.description, ParametersSchema("object", properties, required))];
        i := i + 1;
      }
    }
  }

  /** The inner loop of `get_openai_tool_schema`: one string property per
      declared param, in declaration order, and the list of their names. */
  method ParameterProperties(params: Items<string>) returns (properties: Items<PropertySchema>, required: seq<string>)
    requires UniqueKeys(params)
    ensures |properties| == |params|
    ensures forall k :: 0 <= k < |params| ==> properties[k] == (params[k].0, PropertySchema("string", params[k].1))
    ensures required == Keys(params)
  {
    properties, required := [], [];
    var j := 0;
    while j < |params|
      invariant 0 <= j <= |params|
      invariant |properties| == j && |required| == j
      invariant forall k :: 0 <= k < j ==> properties[k] == (params[k].0, PropertySchema("string", params[k].1))
      invariant forall k :: 0 <= k < j ==> required[k] == params[k].0
    {
      var (param, desc) := params[j];
      assert param !in Keys(properties) by {
        forall k | 0 <= k < j ensures Keys(properties)[k] != param {
          assert params[k].0 != params[j].0;
        }
      }
      properties := Put(properties, param, PropertySchema("string", desc));
      required := required + [param];
      j := j + 1;
    }
  }

  /** Looking a parameter up in a derived schema: the properties dict holds
      exactly the declared params, each as a string property with its
      declared description. */
  lemma {:induction false} DescribedProperty(props: Items<PropertySchema>, params: Items<string>, p: string)
    requires |props| == |params|
    requires forall j :: 0 <= j < |params| ==> props[j] == (params[j].0, PropertySchema("string", params[j].1))
    ensures Get(props, p) == match Get(params, p)
                             case None => None
                             case Some(desc) => Some(PropertySchema("string", desc))
  {
    if params != [] && params[0].0 != p {
      DescribedProperty(props[1..], params[1..], p);
    }
  }

  /** `{"type": kind, "description": description}` as JSON. */
  function PropertyJson(p: PropertySchema): (v: Value)
    ensures Plain(v) && v.Dict? && Keys(v.entries) == ["type", "description"]
    ensures v.entries[0].1 == Str(p.kind) && v.entries[1].1 == Str(p.description)
  {
    var entries := [("type", Str(p.kind)), ("description", Str(p.description))];
    assert Keys(entries) == ["type", "description"];
    Dict(entries)
  }

  /** The `properties` dict: each property under its name, in order. */
  function PropertiesJson(props: Items<PropertySchema>): (v: Value)
    ensures Plain(v) && v.Dict? && Keys(v.entries) == Keys(props)
    ensures forall j :: 0 <= j < |props| ==> v.entries[j].1 == PropertyJson(props[j].1)
  {
    var entries := seq(|props|, j requires 0 <= j < |props| => (props[j].0, PropertyJson(props[j].1)));
    assert forall j :: 0 <= j < |entries| ==> entries[j].0 == props[j].0 && Plain(entries[j].1);
    KeysAgree(entries, props);
    Dict(entries)
  }

  /** The `required` list of names. */
  function RequiredJson(req: seq<string>): (v: Value)
    ensures Plain(v) && v.List? && |v.items| == |req|
    ensures forall j :: 0 <= j < |req| ==> v.items[j] == Str(req[j])
  {
    List(seq(|req|, j requires 0 <= j < |req| => Str(req[j])))
  }

  /** `{"type": kind, "properties": {...}, "required": [...]}` as JSON. */
  function ParametersJson(ps: ParametersSchema): (v: Value)
    ensures Plain(v) && v.Dict? && Keys(v.entries) == ["type", "properties", "required"]
    ensures v.entries[0].1 == Str(ps.kind)
    ensures v.entries[1].1 == PropertiesJson(ps.properties) && v.entries[2].1 == RequiredJson(ps.required)
  {
    var entries := [("type", Str(ps.kind)), ("properties", PropertiesJson(ps.properties)), ("required", RequiredJson(ps.required))];
    assert Keys(entries) == ["type", "properties", "required"];
    Dict(entries)
  }

  /** The JSON the /openai-tools route sends for one schema entry:
      `{"name": ..., "description": ..., "parameters": {...}}`. */
  function ToolSchemaJson(t: ToolSchema): (v: Value)
    ensures Plain(v)
    ensures v.Dict? && Keys(v.entries) == ["name", "description", "parameters"]
    ensures v.entries[0].1 == Str(t.name) && v.entries[1].1 == Str(t.description)
    ensures v.entries[2].1 == ParametersJson(t.parameters)
  {
    var entries := [("name", Str(t.name)), ("description", Str(t.description)), ("parameters", ParametersJson(t.parameters))];
    assert Keys(entries) == ["name", "description", "parameters"];
    Dict(entries)
  }

  /** The JSON rendering of a derived schema entry, read against the
      metadata it was derived from: name and description as registered,
      type "object", a lookup in the properties dict finds a string
      property with the param's description exactly for a declared param,
      and `required` lists the declared param names in order. */
  lemma RenderedSchema(t: ToolSchema, name: string, meta: ToolMeta, q: string)
    requires Describes(t, name, meta)
    ensures var v := ToolSchemaJson(t); var p := v.entries[2].1;
      && v.entries[0].1 == Str(name) && v.entries[1].1 == Str(meta.description)
      && p.entries[0].1 == Str("object")
      && Get(p.entries[1].1.entries, q) == (match Get(meta.params, q)
                                            case None => None
                                            case Some(desc) => Some(PropertyJson(PropertySchema("string", desc))))
      && |p.entries[2].1.items| == |meta.params|
      && (forall j :: 0 <= j < |meta.params| ==> p.entries[2].1.items[j] == Str(meta.params[j].0))
  {
    var props := t.parameters.properties;
    var entries := PropertiesJson(props).entries;
    forall j | 0 <= j < |meta.params|
      ensures entries[j] == (meta.params[j].0, PropertyJson(PropertySchema("string", meta.params[j].1)))
    {
      assert entries[j].0 == Keys(entries)[j] == Keys(props)[j] == props[j].0;
    }
    RenderedProperty(entries, meta.params, q);
    var required := RequiredJson(t.parameters.required);
    assert forall j :: 0 <= j < |meta.params| ==> required.items[j] == Str(meta.params[j].0) by {
      forall j | 0 <= j < |meta.params| ensures required.items[j] == Str(meta.params[j].0) {
        assert t.parameters.required[j] == Keys(meta.params)[j];
      }
    }
  }

  /** A lookup in the rendered properties dict. */
  lemma {:induction false} RenderedProperty(entries: Items<Value>, params: Items<string>, q: string)
    requires |entries| == |params|
    requires forall j :: 0 <= j < |params| ==>
      entries[j] == (params[j].0, PropertyJson(PropertySchema("string", params[j].1)))
    ensures Get(entries, q) == match Get(params, q)
                               case None => None
                               case Some(desc) => Some(PropertyJson(PropertySchema("string", desc)))
  {
    if params != [] && params[0].0 != q {
      RenderedProperty(entries[1..], params[1..], q);
    }
  }

  /** The JSON array the /openai-tools route sends. */
  function OpenAiToolsJson(schema: seq<ToolSchema>): (v: Value)
    ensures Plain(v)
    ensures v.List? && |v.items| == |schema|
    ensures forall i :: 0 <= i < |schema| ==> v.items[i] == ToolSchemaJson(schema[i])
  {
    List(seq(|schema|, i requires 0 <= i < |schema| => ToolSchemaJson(schema[i])))
  }
}
