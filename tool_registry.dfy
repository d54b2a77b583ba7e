/** The global tool registry: an insertion-ordered dict from tool name to its
    generated definition and its implementation. */
module ToolRegistry {
  import opened Wrappers
  import opened JsonValues
  import opened Conversation
  import opened SeqUtil
  import Text

  datatype Registered = Registered(definition: ToolDef, func: PyFunc)

  const NoDescription := "No description provided."

  /** The parameters a schema is built from: every parameter but `self`. */
  function SchemaParams(params: seq<Param>): (r: seq<Param>)
    ensures forall p :: p in r <==> p in params && p.name != "self"
  {
    Filter(params, (p: Param) => p.name != "self")
  }

  /** Names of the parameters the schema marks required, in signature order. */
  function RequiredNames(params: seq<Param>): (r: seq<string>)
    ensures forall n :: n in r <==> exists p :: p in params && p.name == n && n != "self" && !p.hasDefault
    decreases |params|
  {
    if |params| == 0 then []
    else
      var p := params[|params| - 1];
      var rest := RequiredNames(params[..|params| - 1]);
      assert forall q :: q in params <==> q in params[..|params| - 1] || q == p;
      rest + (if p.name != "self" && !p.hasDefault then [p.name] else [])
  }

  function PropertiesOf(params: seq<Param>): (r: map<string, Json>)
    ensures r.Keys == set p | p in params && p.name != "self" :: p.name
    decreases |params|
  {
    if |params| == 0 then map[]
    else
      var p := params[|params| - 1];
      var rest := PropertiesOf(params[..|params| - 1]);
      assert forall q :: q in params <==> q in params[..|params| - 1] || q == p;
      if p.name == "self" then rest else rest[p.name := p.schema]
  }

  /** The parameter schema `_generate_schema` produces. */
  function SchemaOf(params: seq<Param>): (r: Json)
    ensures r.JObj? && r.fields.Keys == {"type", "properties", "required"}
    ensures r.fields["type"] == JStr("object")
    ensures r.fields["properties"].JObj?
    ensures r.fields["properties"].fields.Keys == set p | p in params && p.name != "self" :: p.name
    ensures r.fields["required"] == StringList(RequiredNames(params))
  {
    JObj(map["type" := JStr("object"), "properties" := JObj(PropertiesOf(params)), "required" := StringList(RequiredNames(params))])
  }

  /** The definition the `tool` decorator generates for a function. */
  function DefinitionOf(func: PyFunc): (d: ToolDef)
    ensures d.name == func.name
    ensures d.description == Text.Strip(if func.doc.Some? && func.doc.value != "" then func.doc.value else NoDescription)
    ensures d.parameters == SchemaOf(func.params)
  {
    var description := if func.doc.Some? && func.doc.value != "" then func.doc.value else NoDescription;
    ToolDef(func.name, Text.Strip(description), SchemaOf(func.params))
  }

  function NameOf(d: ToolDef): string
  {
    d.name
  }

  /** The names among `names` that are keys of `tools`, in order. */
  function KnownNames(names: seq<string>, tools: map<string, Registered>): (r: seq<string>)
    ensures forall n :: n in r ==> n in tools
  {
    Filter(names, (n: string) => n in tools)
  }

  function DefinitionsFor(names: seq<string>, tools: map<string, Registered>): (r: seq<ToolDef>)
    requires forall n :: n in names ==> n in tools
    ensures |r| == |names| && forall k :: 0 <= k < |names| ==> r[k] == tools[names[k]].definition
  {
    seq(|names|, k requires 0 <= k < |names| => tools[names[k]].definition)
  }

  class ToolRegistry {
    /** Tool names in first-registration order, and the dict itself. */
    var order: seq<string>
    var tools: map<string, Registered>

    ghost predicate Valid()
      reads this
    {
      Distinct(order)
      && (forall n :: n in tools <==> n in order)
      && (forall n :: n in tools ==> tools[n].definition.name == n)
    }

    constructor ()
      ensures Valid() && order == [] && tools == map[]
    {
      order := [];
      tools := map[];
    }

    /** The `tool` decorator: registers `func` under its own name and returns it unchanged.
        Re-registering a name replaces its entry and keeps its original position. */
    method Tool(func: PyFunc) returns (r: PyFunc)
      requires Valid()
      modifies this
      ensures Valid()
      ensures r == func
      ensures tools == old(tools)[func.name := Registered(DefinitionOf(func), func)]
      ensures order == if func.name in old(tools) then old(order) else old(order) + [func.name]
    {
      if func.name !in tools {
        order := order + [func.name];
      }
      tools := tools[func.name := Registered(DefinitionOf(func), func)];
      r := func;
    }

    /** `get_definitions(exclude)`: every registered definition not excluded, in registration order. */
    function GetDefinitions(exclude: Option<seq<string>>): (r: seq<ToolDef>)
      reads this
      requires Valid()
      ensures Map(r, NameOf) == Filter(order, (n: string) => exclude.None? || n !in exclude.value)
      ensures forall d :: d in r ==> d.name in tools && d == tools[d.name].definition
    {
      var names := Filter(order, (n: string) => exclude.None? || n !in exclude.value);
      var r := DefinitionsFor(names, tools);
      assert Map(r, NameOf) == names;
      r
    }

    /** `get_definitions_by_names(names)`: the definitions of the known names, in the order asked,
        unknown names skipped and repeated names repeated. */
    function GetDefinitionsByNames(names: seq<string>): (r: seq<ToolDef>)
      reads this
      requires Valid()
      ensures Map(r, NameOf) == KnownNames(names, tools)
      ensures forall d :: d in r ==> d.name in tools && d == tools[d.name].definition
    {
      var known := KnownNames(names, tools);
      var r := DefinitionsFor(known, tools);
      assert Map(r, NameOf) == known;
      r
    }

    /** `get_function(name)`: the implementation, or None for an unknown name. */
    function GetFunction(name: string): (r: Option<PyFunc>)
      reads this
      ensures r.Some? <==> name in tools
      ensures r.Some? ==> r.value == tools[name].func
    {
      if name in tools then Some(tools[name].func) else None
    }
  }
}
