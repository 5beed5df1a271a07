/**
 * `MathServerAdapter`: an example adapter whose tool table, built once at
 * construction, offers `add` and `multiply`; `execute` dispatches a call by
 * tool name and reports every outcome with metadata.
 */
module MathServer {
  import opened Wrappers
  import opened PyValues
  import opened AdapterTypes

  /** The class name the adapter reports as the source of its metadata. */
  const Source: string := "MathServerAdapter"

  /** The bound methods a tool can call: `self.add` and `self.multiply`. */
  datatype MathOp = AddOp | MultiplyOp

  /** A registered tool: name, description, parameter schema and callable. */
  datatype CrewAITool = CrewAITool(name: string, description: string, parameters: Value, func: MathOp)

  /** How a call to `execute` ends: with a response, or with an exception that escapes it. */
  datatype Completion = Returned(response: Response) | Raised(exception: PyException)

  /** `s * n` for a sequence: `n` copies of `s`, none when `n <= 0`. */
  function Repeat<T>(s: seq<T>, n: int): seq<T>
    decreases if n < 0 then 0 else n
  {
    if n <= 0 then [] else s + Repeat(s, n - 1)
  }

  /** Repetition makes a sequence `max(n, 0)` times as long. */
  lemma {:induction false} RepeatLength<T>(s: seq<T>, n: int)
    ensures |Repeat(s, n)| == |s| * Max(n, 0)
    decreases if n < 0 then 0 else n
  {
    if n > 0 {
      RepeatLength(s, n - 1);
      assert |s| * n == |s| + |s| * (n - 1);
    }
  }

  /**
   * `r` is `s` repeated `n` times, stated without recursion: `max(n, 0)` times
   * as long, with element `i mod len(s)` of `s` at every position `i`.
   */
  ghost predicate IsRepetition<T>(r: seq<T>, s: seq<T>, n: int)
  {
    && |r| == |s| * Max(n, 0)
    && (|s| > 0 ==> forall i :: 0 <= i < |r| ==> r[i] == s[i % |s|])
  }

  /** `x % m` is the remainder of any division of `x` by `m`. */
  lemma ModOf(x: int, q: int, m: int, rem: int)
    requires 0 <= rem < m && x == q * m + rem
    ensures x % m == rem
  {
    var d := q - x / m;
    assert d * m == x % m - rem;
  }

  lemma ModShift(i: int, m: int)
    requires 0 < m <= i
    ensures (i - m) % m == i % m
  {
    var q := (i - m) / m;
    assert i == (q + 1) * m + (i - m) % m;
    ModOf(i, q + 1, m, (i - m) % m);
  }

  /** `Repeat` produces the repetition `IsRepetition` describes. */
  lemma {:induction false} RepeatIsRepetition<T>(s: seq<T>, n: int)
    ensures IsRepetition(Repeat(s, n), s, n)
    decreases if n < 0 then 0 else n
  {
    RepeatLength(s, n);
    if n > 0 && |s| > 0 {
      RepeatIsRepetition(s, n - 1);
      var r := Repeat(s, n);
      forall i | 0 <= i < |r|
        ensures r[i] == s[i % |s|]
      {
        if i >= |s| {
          assert r[i] == Repeat(s, n - 1)[i - |s|];
          ModShift(i, |s|);
        }
      }
    }
  }

  /** `r` is the Python string or list `v` repeated `n` times. */
  ghost predicate RepeatsOf(r: Value, v: Value, n: int)
  {
    || (v.Str? && r.Str? && IsRepetition(r.s, v.s, n))
    || (v.List? && r.List? && IsRepetition(r.items, v.items, n))
  }

  /** `seq * n` on a Python string or list. */
  function RepeatValue(v: Value, n: int): (r: Value)
    requires Sliceable(v)
    ensures RepeatsOf(r, v, n)
  {
    if v.Str? then
      RepeatIsRepetition(v.s, n);
      Str(Repeat(v.s, n))
    else
      RepeatIsRepetition(v.items, n);
      List(Repeat(v.items, n))
  }

  /** `sys.maxsize` on a 64-bit platform, the largest `Py_ssize_t`. */
  const MaxSize: int := 0x7FFF_FFFF_FFFF_FFFF

  /** A repeat count CPython can convert to `Py_ssize_t`. */
  predicate IndexSized(n: int)
  {
    -MaxSize - 1 <= n <= MaxSize
  }

  /** The message of the `OverflowError` a repeat count outside `Py_ssize_t` raises. */
  const IndexOverflow: string := "cannot fit 'int' into an index-sized integer"

  /** `v * count` for a sequence `v`: its repetition, if the count fits `Py_ssize_t`. */
  function Repetition(v: Value, count: int): (r: Result<Value, PyException>)
    requires Sliceable(v)
    ensures r.Success? <==> IndexSized(count)
    ensures r.Success? ==> RepeatsOf(r.value, v, count)
    ensures r.Failure? ==> r.error == OverflowError(IndexOverflow)
  {
    if IndexSized(count) then Success(RepeatValue(v, count))
    else Failure(OverflowError(IndexOverflow))
  }

  /** The signature `(a, b)` both math tools declare. */
  function Schema(): Value
  {
    Dict([("a", Dict([("type", Str("integer")), ("description", Str("First number"))])),
          ("b", Dict([("type", Str("integer")), ("description", Str("Second number"))]))])
  }

  /** The parameter dict supplies exactly the keywords `a` and `b`. */
  predicate ExactlyAB(parameters: Value)
  {
    && parameters.Dict?
    && (forall i :: 0 <= i < |parameters.entries| ==>
          parameters.entries[i].0 == "a" || parameters.entries[i].0 == "b")
    && Lookup(parameters.entries, "a").Some?
    && Lookup(parameters.entries, "b").Some?
  }

  /** The first keyword that is neither `a` nor `b`, in the dict's order. */
  function FirstUnexpected(entries: seq<(string, Value)>): (r: Option<string>)
    ensures r.None? <==> forall i :: 0 <= i < |entries| ==> entries[i].0 == "a" || entries[i].0 == "b"
    ensures r.Some? ==> r.value != "a" && r.value != "b"
    ensures r.Some? ==> exists i :: 0 <= i < |entries| && entries[i].0 == r.value
                                    && forall j :: 0 <= j < i ==> entries[j].0 == "a" || entries[j].0 == "b"
  {
    if |entries| == 0 then None
    else if entries[0].0 != "a" && entries[0].0 != "b" then Some(entries[0].0)
    else
      var r := FirstUnexpected(entries[1..]);
      assert forall i :: 1 <= i < |entries| ==> entries[i] == entries[1..][i - 1];
      assert r.Some? ==> exists i :: 0 < i < |entries| && entries[i].0 == r.value
                                    && forall j :: 0 <= j < i ==> entries[j].0 == "a" || entries[j].0 == "b" by {
        if r.Some? {
          var i :| 0 <= i < |entries| - 1 && entries[1..][i].0 == r.value
                   && forall j :: 0 <= j < i ==> entries[1..][j].0 == "a" || entries[1..][j].0 == "b";
          assert entries[i + 1].0 == r.value;
        }
      }
      r
  }

  /** `__qualname__` of the bound method a tool calls. */
  function QualName(op: MathOp): string
  {
    if op == AddOp then "MathServerAdapter.add" else "MathServerAdapter.multiply"
  }

  /**
   * The error raised when `func(**parameters)` cannot bind `parameters` to
   * `(a, b)` of a bound method `(self, a, b)`: not a mapping (reported with
   * the module-qualified name), the first keyword other than `a` and `b`
   * (`self` is already bound, so it is a second value, any other is
   * unexpected), or missing arguments. `qualName` is the method's qualified
   * name and `moduleName` its class's module.
   */
  function BindError(moduleName: string, qualName: string, parameters: Value): (r: Option<PyException>)
    ensures r.None? <==> ExactlyAB(parameters)
    ensures r.Some? ==> r.value.TypeError?
  {
    if !parameters.Dict? then
      Some(TypeError(moduleName + "." + qualName + "() argument after ** must be a mapping, not "
                     + TypeName(parameters)))
    else
      match FirstUnexpected(parameters.entries)
      case Some(k) =>
        if k == "self" then Some(TypeError(qualName + "() got multiple values for argument 'self'"))
        else Some(TypeError(qualName + "() got an unexpected keyword argument '" + k + "'"))
      case None =>
        var a := Lookup(parameters.entries, "a");
        var b := Lookup(parameters.entries, "b");
        if a.None? && b.None? then
          Some(TypeError(qualName + "() missing 2 required positional arguments: 'a' and 'b'"))
        else if a.None? then
          Some(TypeError(qualName + "() missing 1 required positional argument: 'a'"))
        else if b.None? then
          Some(TypeError(qualName + "() missing 1 required positional argument: 'b'"))
        else None
  }

  class MathServerAdapter {
    /** `type(self).__module__`: `__main__` when the file runs as a script, its import name otherwise. */
    const moduleName: string
    /** `self.config` */
    const config: Config
    /** `self.tools`, set once by the constructor. */
    const tools: map<string, CrewAITool>

    /**
     * `MathServerAdapter(config=None)`: an absent or empty configuration
     * becomes an empty one; validation accepts anything, so construction
     * never fails; the tool table is registered.
     */
    constructor (moduleName: string, config: Option<Config>)
      ensures this.moduleName == moduleName
      ensures this.config == (if config.Some? then config.value else map[])
      ensures ValidateConfig().Pass?
      ensures tools == RegisterTools()
      ensures Valid()
    {
      this.moduleName := moduleName;
      this.config := if config.Some? && config.value != map[] then config.value else map[];
      tools := RegisterTools();
    }

    /** The object is as its constructor left it. */
    predicate Valid()
    {
      tools == RegisterTools()
    }

    /** `_validate_config`: no requirement on the configuration. */
    function ValidateConfig(): (r: Outcome<PyException>)
      ensures r.Pass?
    {
      Pass
    }

    /** `add`: Python's `a + b`, integer addition for integer operands. */
    function Add(a: Value, b: Value): (r: Result<Value, PyException>)
      ensures IsInt(a) && IsInt(b) ==> r == Success(Int(AsInt(a) + AsInt(b)))
      ensures r.Success? <==> (IsInt(a) && IsInt(b)) || (a.Str? && b.Str?) || (a.List? && b.List?)
      ensures r.Failure? ==> r.error.TypeError?
    {
      if IsInt(a) && IsInt(b) then Success(Int(AsInt(a) + AsInt(b)))
      else if a.Str? then
        if b.Str? then Success(Str(a.s + b.s))
        else Failure(TypeError("can only concatenate str (not \"" + TypeName(b) + "\") to str"))
      else if a.List? then
        if b.List? then Success(List(a.items + b.items))
        else Failure(TypeError("can only concatenate list (not \"" + TypeName(b) + "\") to list"))
      else Failure(TypeError("unsupported operand type(s) for +: '" + TypeName(a) + "' and '" + TypeName(b) + "'"))
    }

    /**
     * `multiply`: Python's `a * b`, the integer product, or a string or list
     * repeated by an integer on either side.
     */
    function Multiply(a: Value, b: Value): (r: Result<Value, PyException>)
      ensures IsInt(a) && IsInt(b) ==> r == Success(Int(AsInt(a) * AsInt(b)))
      ensures Sliceable(a) && IsInt(b) ==> r == Repetition(a, AsInt(b))
      ensures IsInt(a) && Sliceable(b) ==> r == Repetition(b, AsInt(a))
      ensures r.Success? <==>
        || (IsInt(a) && IsInt(b))
        || (Sliceable(a) && IsInt(b) && IndexSized(AsInt(b)))
        || (IsInt(a) && Sliceable(b) && IndexSized(AsInt(a)))
      ensures r.Failure? ==> r.error.TypeError? || r.error == OverflowError(IndexOverflow)
    {
      if IsInt(a) && IsInt(b) then Success(Int(AsInt(a) * AsInt(b)))
      else if Sliceable(a) then
        if IsInt(b) then Repetition(a, AsInt(b))
        else Failure(TypeError("can't multiply sequence by non-int of type '" + TypeName(b) + "'"))
      else if Sliceable(b) then
        if IsInt(a) then Repetition(b, AsInt(a))
        else Failure(TypeError("can't multiply sequence by non-int of type '" + TypeName(a) + "'"))
      else Failure(TypeError("unsupported operand type(s) for *: '" + TypeName(a) + "' and '" + TypeName(b) + "'"))
    }

    /** `_register_tools`: the table of the two math tools, keyed by their names. */
    static function RegisterTools(): (r: map<string, CrewAITool>)
      ensures r.Keys == {"add", "multiply"}
      ensures forall name :: name in r ==> r[name].name == name && r[name].parameters == Schema()
      ensures r["add"].func == AddOp && r["multiply"].func == MultiplyOp
    {
      map["add" := CrewAITool("add", "Add two numbers", Schema(), AddOp),
          "multiply" := CrewAITool("multiply", "Multiply two numbers", Schema(), MultiplyOp)]
    }

    /** `tool.func(**parameters)`: bind the keywords, then run the method. */
    function Call(op: MathOp, parameters: Value): (r: Result<Value, PyException>)
      ensures !ExactlyAB(parameters) ==> r == Failure(BindError(moduleName, QualName(op), parameters).value)
      ensures !ExactlyAB(parameters) ==> r.error.TypeError?
      ensures ExactlyAB(parameters) ==>
        var a := Lookup(parameters.entries, "a").value;
        var b := Lookup(parameters.entries, "b").value;
        r == (if op == AddOp then Add(a, b) else Multiply(a, b))
    {
      match BindError(moduleName, QualName(op), parameters)
      case Some(e) => Failure(e)
      case None =>
        var a := Lookup(parameters.entries, "a").value;
        var b := Lookup(parameters.entries, "b").value;
        if op == AddOp then Add(a, b) else Multiply(a, b)
    }

    /**
     * `execute`: an absent or falsy tool name, or one not in the table, is
     * an unknown tool; otherwise the tool's method runs inside `try`, and its
     * result or exception becomes the response. Every response carries
     * metadata. A truthy unhashable name raises from the membership test,
     * which stands outside the `try`.
     */
    function Execute(kwargs: map<string, Value>): (r: Completion)
      ensures var toolName := Arg(kwargs, "tool_name", NoneValue);
        && (r.Raised? <==> Truthy(toolName) && !Hashable(toolName))
        && (r.Raised? ==> r.exception == UnhashableError(toolName))
        && (r.Returned? ==> WellFormed(r.response)
                            && r.response.metadata == Some(Metadata(Source, None)))
        && (r.Returned? && !(toolName.Str? && toolName.s in tools) ==>
              r.response == Response(false, None, Some("Unknown tool: " + Show(toolName)), Some(Metadata(Source, None))))
        && (Truthy(toolName) && toolName.Str? && toolName.s in tools ==>
              var call := Call(tools[toolName.s].func, Arg(kwargs, "parameters", Dict([])));
              && r.Returned?
              && (r.response.success <==> call.Success?)
              && (call.Success? ==> r.response.data == Some(call.value))
              && (call.Failure? ==> r.response.error == Some(ExceptionText(call.error))))
    {
      var toolName := Arg(kwargs, "tool_name", NoneValue);
      var parameters := Arg(kwargs, "parameters", Dict([]));
      var metadata := Some(Metadata(Source, None));
      if !Truthy(toolName) then
        Returned(Response(false, None, Some("Unknown tool: " + Show(toolName)), metadata))
      else if !Hashable(toolName) then
        Raised(UnhashableError(toolName))
      else if !(toolName.Str? && toolName.s in tools) then
        Returned(Response(false, None, Some("Unknown tool: " + Show(toolName)), metadata))
      else
        match Call(tools[toolName.s].func, parameters)
        case Success(result) => Returned(Succeeded(result, metadata))
        case Failure(e) => Returned(Failed(e, metadata))
    }
  }

  /** `n * s == s * n` for a sequence `s`, and integer products commute. */
  lemma MultiplyCommutes(adapter: MathServerAdapter, a: Value, b: Value)
    requires IsInt(a) && (IsInt(b) || Sliceable(b))
    ensures adapter.Multiply(a, b) == adapter.Multiply(b, a)
  {
  }

  /** `execute(tool_name="add", parameters={a, b})` on integers returns their sum as data. */
  lemma ExecuteAddsIntegers(adapter: MathServerAdapter, kwargs: map<string, Value>, x: int, y: int)
    requires adapter.Valid()
    requires Arg(kwargs, "tool_name", NoneValue) == Str("add")
    requires "parameters" in kwargs && ExactlyAB(kwargs["parameters"])
    requires Lookup(kwargs["parameters"].entries, "a") == Some(Int(x))
    requires Lookup(kwargs["parameters"].entries, "b") == Some(Int(y))
    ensures adapter.Execute(kwargs)
      == Returned(Response(true, Some(Int(x + y)), None, Some(Metadata("MathServerAdapter", None))))
  {
  }

  /** `execute(tool_name="multiply", parameters={a, b})` on integers returns their product as data. */
  lemma ExecuteMultipliesIntegers(adapter: MathServerAdapter, kwargs: map<string, Value>, x: int, y: int)
    requires adapter.Valid()
    requires Arg(kwargs, "tool_name", NoneValue) == Str("multiply")
    requires "parameters" in kwargs && ExactlyAB(kwargs["parameters"])
    requires Lookup(kwargs["parameters"].entries, "a") == Some(Int(x))
    requires Lookup(kwargs["parameters"].entries, "b") == Some(Int(y))
    ensures adapter.Execute(kwargs)
      == Returned(Response(true, Some(Int(x * y)), None, Some(Metadata("MathServerAdapter", None))))
  {
  }

  /**
   * An absent, empty or unregistered tool name returns
   * "Unknown tool: <name>" with metadata, and never raises.
   */
  lemma UnknownToolFails(adapter: MathServerAdapter, kwargs: map<string, Value>)
    requires adapter.Valid()
    requires Printable(Arg(kwargs, "tool_name", NoneValue))
    requires Arg(kwargs, "tool_name", NoneValue) != Str("add")
    requires Arg(kwargs, "tool_name", NoneValue) != Str("multiply")
    ensures adapter.Execute(kwargs)
      == Returned(Response(false, None, Some("Unknown tool: " + Show(Arg(kwargs, "tool_name", NoneValue))),
                           Some(Metadata("MathServerAdapter", None))))
  {
  }

  /**
   * A registered tool called with parameters other than exactly `a` and `b`
   * fails with the text of the `TypeError` that binding raises, still with
   * metadata.
   */
  lemma WrongParametersFail(adapter: MathServerAdapter, kwargs: map<string, Value>, op: MathOp)
    requires adapter.Valid()
    requires Arg(kwargs, "tool_name", NoneValue) == Str(if op == AddOp then "add" else "multiply")
    requires !ExactlyAB(Arg(kwargs, "parameters", Dict([])))
    ensures var e := BindError(adapter.moduleName, QualName(op), Arg(kwargs, "parameters", Dict([])));
      && e.Some? && e.value.TypeError?
      && adapter.Execute(kwargs)
           == Returned(Response(false, None, Some(ExceptionText(e.value)), Some(Metadata("MathServerAdapter", None))))
  {
  }

  /** A call without a `parameters` argument binds nothing and reports both arguments missing. */
  lemma MissingParametersReported(adapter: MathServerAdapter)
    requires adapter.Valid()
    ensures adapter.Execute(map["tool_name" := Str("add")])
      == Returned(Response(false, None,
                           Some("MathServerAdapter.add" + "() missing 2 required positional arguments: 'a' and 'b'"),
                           Some(Metadata("MathServerAdapter", None))))
  {
  }

  /** A `self` keyword collides with the instance the method is bound to. */
  lemma SelfKeywordReported(adapter: MathServerAdapter)
    requires adapter.Valid()
    ensures adapter.Execute(map["tool_name" := Str("add"),
                                "parameters" := Dict([("self", Int(1)), ("a", Int(2)), ("b", Int(3))])])
      == Returned(Response(false, None,
                           Some("MathServerAdapter.add" + "() got multiple values for argument 'self'"),
                           Some(Metadata("MathServerAdapter", None))))
  {
  }

  /** Parameters that are not a dict are reported with the module-qualified method name. */
  lemma NonMappingParametersReported(adapter: MathServerAdapter)
    requires adapter.Valid()
    ensures adapter.Execute(map["tool_name" := Str("multiply"), "parameters" := NoneValue])
      == Returned(Response(false, None,
                           Some(adapter.moduleName + "." + "MathServerAdapter.multiply"
                                + "() argument after ** must be a mapping, not " + "NoneType"),
                           Some(Metadata("MathServerAdapter", None))))
  {
  }

  /** `multiply` repeats a string by an integer, on either side. */
  lemma MultiplyRepeatsString(adapter: MathServerAdapter)
    ensures adapter.Multiply(Str("ab"), Int(3)) == Success(Str("ababab"))
    ensures adapter.Multiply(Int(3), Str("ab")) == Success(Str("ababab"))
  {
    assert Repeat("ab", 1) == "ab";
    assert Repeat("ab", 2) == "abab";
    assert Repeat("ab", 3) == "ababab";
  }

  /** A repeat count beyond `sys.maxsize` fails with `OverflowError`, still with metadata. */
  lemma HugeRepeatCountFails(adapter: MathServerAdapter)
    requires adapter.Valid()
    ensures adapter.Execute(map["tool_name" := Str("multiply"),
                                "parameters" := Dict([("a", Str("ab")), ("b", Int(MaxSize + 1))])])
      == Returned(Response(false, None, Some("cannot fit 'int' into an index-sized integer"),
                           Some(Metadata("MathServerAdapter", None))))
  {
    var entries := [("a", Str("ab")), ("b", Int(MaxSize + 1))];
    assert Lookup(entries[1..], "b") == Some(Int(MaxSize + 1));
    assert ExactlyAB(Dict(entries));
  }
}
