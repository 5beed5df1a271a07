/**
 * `ToolsAdapter`: a configuration holding a list of tool entries, and an
 * `execute` that finds an entry by name and echoes the call back.
 */
module ToolsAdapter {
  import opened Wrappers
  import opened PyValues
  import opened AdapterTypes

  /** The class name the adapter reports as the source of its metadata. */
  const Source: string := "ToolsAdapter"

  /** What `_validate_config` decides: `"tools"` must be present and be a list (possibly empty). */
  function ConfigCheck(config: Config): (r: Outcome<PyException>)
    ensures r.Pass? <==> "tools" in config && config["tools"].List?
    ensures "tools" !in config ==> r == Fail(ConfigurationError("Missing required tools configuration"))
    ensures "tools" in config && r.Fail? ==> r == Fail(ConfigurationError("Tools configuration must be a list"))
  {
    if "tools" !in config then Fail(ConfigurationError("Missing required tools configuration"))
    else if !config["tools"].List? then Fail(ConfigurationError("Tools configuration must be a list"))
    else Pass
  }

  /** A constructed adapter: its configuration passed validation. */
  datatype ToolsAdapter = ToolsAdapter(config: Config)
  {
    predicate Valid()
    {
      ConfigCheck(config).Pass?
    }

    /** `self.config["tools"]` */
    function Tools(): seq<Value>
      requires Valid()
    {
      config["tools"].items
    }
  }

  /** Constructing an adapter runs validation; a failure there is raised. */
  function Create(config: Config): (r: Result<ToolsAdapter, PyException>)
    ensures r.Success? <==> ConfigCheck(config).Pass?
    ensures r.Success? ==> r.value.config == config && r.value.Valid()
    ensures r.Failure? ==> ConfigCheck(config) == Fail(r.error)
  {
    match ConfigCheck(config)
    case Pass => Success(ToolsAdapter(config))
    case Fail(e) => Failure(e)
  }

  /**
   * `tool["name"]` used as a dictionary key: the entry must be a dict with a
   * `"name"` key whose value is hashable.
   */
  function NameOf(entry: Value): (r: Result<Value, PyException>)
    ensures r.Success? <==> entry.Dict? && Lookup(entry.entries, "name").Some?
                            && Hashable(Lookup(entry.entries, "name").value)
    ensures r.Success? ==> r.value == Lookup(entry.entries, "name").value
    ensures entry.Dict? && Lookup(entry.entries, "name").None? ==> r == Failure(KeyError("name"))
  {
    match entry
    case Dict(entries) =>
      (match Lookup(entries, "name")
       case None => Failure(KeyError("name"))
       case Some(name) => if Hashable(name) then Success(name) else Failure(UnhashableError(name)))
    case Str(_) => Failure(TypeError("string indices must be integers, not 'str'"))
    case List(_) => Failure(TypeError("list indices must be integers or slices, not str"))
    case _ => Failure(TypeError("'" + TypeName(entry) + "' object is not subscriptable"))
  }

  /** Entry `i` of `entries` is registered under the dictionary key `k`. */
  predicate NamedAt(entries: seq<Value>, i: int, k: Value)
  {
    0 <= i < |entries| && NameOf(entries[i]).Success? && HashKey(NameOf(entries[i]).value) == k
  }

  /**
   * `{tool["name"]: tool for tool in tools}` over the first `n` entries: the
   * entries are visited in order, each overwriting an earlier one of the same
   * name, and the first entry whose name cannot be read stops the comprehension.
   */
  function BuildIndex(entries: seq<Value>, n: nat): (r: Result<map<Value, Value>, PyException>)
    requires n <= |entries|
    ensures r.Success? <==> forall i :: 0 <= i < n ==> NameOf(entries[i]).Success?
    ensures r.Failure? ==> exists i :: 0 <= i < n && NameOf(entries[i]) == Failure(r.error)
                                       && forall j :: 0 <= j < i ==> NameOf(entries[j]).Success?
  {
    if n == 0 then Success(map[])
    else
      match BuildIndex(entries, n - 1)
      case Failure(e) => Failure(e)
      case Success(m) =>
        match NameOf(entries[n - 1])
        case Failure(e) => Failure(e)
        case Success(name) => Success(m[HashKey(name) := entries[n - 1]])
  }

  /**
   * The reference for name lookup: the index of the last of the first `n`
   * entries that is registered under `k`, if any.
   */
  function LastNamed(entries: seq<Value>, k: Value, n: nat): (r: Option<nat>)
    requires n <= |entries|
    ensures r.Some? ==> r.value < n && NamedAt(entries, r.value, k)
                        && forall j :: r.value < j < n ==> !NamedAt(entries, j, k)
    ensures r.None? ==> forall j :: 0 <= j < n ==> !NamedAt(entries, j, k)
  {
    if n == 0 then None
    else if NamedAt(entries, n - 1, k) then Some(n - 1)
    else LastNamed(entries, k, n - 1)
  }

  /**
   * The built index holds the key `k` exactly when some entry carries it,
   * and then maps it to the LAST entry that carries it.
   */
  lemma {:induction false} IndexSelectsLastNamed(entries: seq<Value>, k: Value, n: nat)
    requires n <= |entries| && BuildIndex(entries, n).Success?
    ensures k in BuildIndex(entries, n).value <==> LastNamed(entries, k, n).Some?
    ensures k in BuildIndex(entries, n).value ==>
              BuildIndex(entries, n).value[k] == entries[LastNamed(entries, k, n).value]
  {
    if n > 0 {
      IndexSelectsLastNamed(entries, k, n - 1);
    }
  }

  /** The record `_execute_tool` returns; `format` is the interpreter's `str()`. */
  function Echo(toolName: Value, parameters: Value, entry: Value, format: Value -> string): Value
    requires Printable(toolName)
  {
    Dict([("tool_name", toolName),
          ("status", Str("executed")),
          ("parameters", parameters),
          ("config", entry),
          ("result", Str("Executed " + Show(toolName) + " with parameters: " + format(parameters)))])
  }

  /** The fields of the echo record, read back by key. */
  lemma EchoFields(toolName: Value, parameters: Value, entry: Value, format: Value -> string)
    requires Printable(toolName)
    ensures var echo := Echo(toolName, parameters, entry, format);
      && echo.Dict?
      && Lookup(echo.entries, "tool_name") == Some(toolName)
      && Lookup(echo.entries, "status") == Some(Str("executed"))
      && Lookup(echo.entries, "parameters") == Some(parameters)
      && Lookup(echo.entries, "config") == Some(entry)
  {
    var es := Echo(toolName, parameters, entry, format).entries;
    assert "status"[0] != "config"[0] && "status"[0] != "parameters"[0];
    assert Lookup(es[3..], "config") == Some(entry);
    assert Lookup(es[2..], "config") == Some(entry) by { assert es[2..][1..] == es[3..]; }
    assert Lookup(es[1..], "config") == Some(entry) by { assert es[1..][1..] == es[2..]; }
    assert Lookup(es[2..], "parameters") == Some(parameters);
    assert Lookup(es[1..], "parameters") == Some(parameters) by { assert es[1..][1..] == es[2..]; }
  }

  /**
   * `_execute_tool`: build the name index, look the name up and echo the call
   * with the last entry of that name. Errors in order: an unreadable entry,
   * an unhashable name, an unknown name.
   */
  function ExecuteTool(adapter: ToolsAdapter, toolName: Value, parameters: Value, format: Value -> string)
    : (r: Result<Value, PyException>)
    requires adapter.Valid()
    ensures var tools := adapter.Tools();
      && (BuildIndex(tools, |tools|).Failure? ==> r == Failure(BuildIndex(tools, |tools|).error))
      && (BuildIndex(tools, |tools|).Success? && !Hashable(toolName) ==> r == Failure(UnhashableError(toolName)))
      && (BuildIndex(tools, |tools|).Success? && Hashable(toolName) ==>
            match LastNamed(tools, HashKey(toolName), |tools|)
            case None => r == Failure(ConfigurationError("Tool not found: " + Show(toolName)))
            case Some(i) => r == Success(Echo(toolName, parameters, tools[i], format)))
  {
    var tools := adapter.Tools();
    match BuildIndex(tools, |tools|)
    case Failure(e) => Failure(e)
    case Success(index) =>
      if !Hashable(toolName) then Failure(UnhashableError(toolName))
      else
        var key := HashKey(toolName);
        IndexSelectsLastNamed(tools, key, |tools|);
        if key !in index then Failure(ConfigurationError("Tool not found: " + Show(toolName)))
        else Success(Echo(toolName, parameters, index[key], format))
  }

  /** `kwargs.get("tool_name")` */
  function ToolNameArg(kwargs: map<string, Value>): Value
  {
    Arg(kwargs, "tool_name", NoneValue)
  }

  /** `kwargs.get("parameters", {})` */
  function ParametersArg(kwargs: map<string, Value>): Value
  {
    Arg(kwargs, "parameters", Dict([]))
  }

  /**
   * `execute`: the echo record with metadata naming the tool, or, when
   * `_execute_tool` raises, a failed response without metadata. It never raises.
   */
  function Execute(adapter: ToolsAdapter, kwargs: map<string, Value>, format: Value -> string): (r: Response)
    requires adapter.Valid()
    ensures WellFormed(r)
    ensures var t := ExecuteTool(adapter, ToolNameArg(kwargs), ParametersArg(kwargs), format);
      && (r.success <==> t.Success?)
      && (r.success ==> r.data == Some(t.value)
                        && r.metadata == Some(Metadata(Source, Some(map["tool" := ToolNameArg(kwargs)]))))
      && (!r.success ==> r.error == Some(ExceptionText(t.error)) && r.metadata.None?)
  {
    var toolName := ToolNameArg(kwargs);
    match ExecuteTool(adapter, toolName, ParametersArg(kwargs), format)
    case Success(result) => Succeeded(result, Some(Metadata(Source, Some(map["tool" := toolName]))))
    case Failure(e) => Failed(e, None)
  }

  /** Building an adapter from an empty configuration fails. */
  lemma EmptyConfigRejected()
    ensures Create(map[]) == Failure(ConfigurationError("Missing required tools configuration"))
  {
  }

  /**
   * An empty tool list is accepted, and every call to the resulting adapter
   * with a hashable tool name reports that the tool is not found.
   */
  lemma EmptyToolListFindsNothing(kwargs: map<string, Value>, format: Value -> string)
    requires Hashable(ToolNameArg(kwargs))
    ensures Create(map["tools" := List([])]).Success?
    ensures Execute(Create(map["tools" := List([])]).value, kwargs, format)
      == Response(false, None, Some("Tool not found: " + Show(ToolNameArg(kwargs))), None)
  {
  }

  /**
   * A name no entry carries yields "Tool not found: <name>" and no metadata;
   * an absent `tool_name` is `None` and is looked up like any other name.
   */
  lemma UnknownToolFails(adapter: ToolsAdapter, kwargs: map<string, Value>, format: Value -> string)
    requires adapter.Valid()
    requires forall i :: 0 <= i < |adapter.Tools()| ==> NameOf(adapter.Tools()[i]).Success?
    requires Hashable(ToolNameArg(kwargs))
    requires forall i :: 0 <= i < |adapter.Tools()| ==>
               HashKey(NameOf(adapter.Tools()[i]).value) != HashKey(ToolNameArg(kwargs))
    ensures Execute(adapter, kwargs, format)
      == Response(false, None, Some("Tool not found: " + Show(ToolNameArg(kwargs))), None)
  {
  }

  /**
   * One dict entry without a `"name"` key makes every call fail, whatever
   * the tool asked for, because the index cannot be built.
   */
  lemma MissingNameFailsEveryCall(adapter: ToolsAdapter, kwargs: map<string, Value>, format: Value -> string, i: int)
    requires adapter.Valid()
    requires 0 <= i < |adapter.Tools()|
    requires adapter.Tools()[i].Dict? && Lookup(adapter.Tools()[i].entries, "name").None?
    ensures var r := Execute(adapter, kwargs, format);
      !r.success && r.metadata.None? && r.error.Some?
  {
    assert NameOf(adapter.Tools()[i]).Failure?;
  }

  /**
   * A successful call echoes its inputs: the tool name as given, status
   * "executed", the parameters unchanged and, as config, the last entry that
   * carries the name; its metadata names the tool.
   */
  lemma SuccessEchoesCall(adapter: ToolsAdapter, kwargs: map<string, Value>, format: Value -> string)
    requires adapter.Valid()
    requires Execute(adapter, kwargs, format).success
    ensures var r := Execute(adapter, kwargs, format);
      var tools := adapter.Tools();
      var key := HashKey(ToolNameArg(kwargs));
      && r.data.Some? && r.data.value.Dict?
      && Lookup(r.data.value.entries, "tool_name") == Some(ToolNameArg(kwargs))
      && Lookup(r.data.value.entries, "status") == Some(Str("executed"))
      && Lookup(r.data.value.entries, "parameters") == Some(ParametersArg(kwargs))
      && LastNamed(tools, key, |tools|).Some?
      && Lookup(r.data.value.entries, "config") == Some(tools[LastNamed(tools, key, |tools|).value])
      && r.metadata == Some(Metadata("ToolsAdapter", Some(map["tool" := ToolNameArg(kwargs)])))
  {
    var tools := adapter.Tools();
    var i := LastNamed(tools, HashKey(ToolNameArg(kwargs)), |tools|).value;
    EchoFields(ToolNameArg(kwargs), ParametersArg(kwargs), tools[i], format);
  }

  /** Of two entries that share a name, the later one is selected. */
  lemma LaterDuplicateWins(first: Value, second: Value, name: string, parameters: Value, format: Value -> string)
    requires first.Dict? && Lookup(first.entries, "name") == Some(Str(name))
    requires second.Dict? && Lookup(second.entries, "name") == Some(Str(name))
    ensures var adapter := ToolsAdapter(map["tools" := List([first, second])]);
      && adapter.Valid()
      && ExecuteTool(adapter, Str(name), parameters, format) == Success(Echo(Str(name), parameters, second, format))
  {
    var adapter := ToolsAdapter(map["tools" := List([first, second])]);
    assert NamedAt(adapter.Tools(), 1, Str(name));
  }
}
