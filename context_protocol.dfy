/**
 * `ContextProtocolClient`: validates that a model name and an integer
 * context size are configured, and cuts a context string and a message list
 * down to the context size.
 */
module ContextProtocol {
  import opened Wrappers
  import opened PyValues
  import opened AdapterTypes

  /** The class name the client reports as the source of its metadata. */
  const Source: string := "ContextProtocolClient"

  /** The configuration keys checked at construction, in the order they are checked. */
  const RequiredFields: seq<string> := ["model_name", "context_size"]

  /** The first of `fields` that `config` lacks, if any. */
  function FirstMissing(fields: seq<string>, config: Config): (r: Option<string>)
    ensures r.None? <==> forall i :: 0 <= i < |fields| ==> fields[i] in config
    ensures r.Some? ==> exists i :: 0 <= i < |fields| && fields[i] == r.value && fields[i] !in config
                                    && forall j :: 0 <= j < i ==> fields[j] in config
  {
    if |fields| == 0 then None
    else if fields[0] !in config then Some(fields[0])
    else
      var r := FirstMissing(fields[1..], config);
      assert r.Some? ==> exists i :: 0 < i < |fields| && fields[i] == r.value && fields[i] !in config
                                    && forall j :: 0 <= j < i ==> fields[j] in config by {
        if r.Some? {
          var i :| 0 <= i < |fields| - 1 && fields[1..][i] == r.value && fields[1..][i] !in config
                   && forall j :: 0 <= j < i ==> fields[1..][j] in config;
          assert forall j :: 0 < j < i + 1 ==> fields[j] == fields[1..][j - 1];
        }
      }
      r
  }

  /** What `_validate_config` decides about a configuration. */
  function ConfigCheck(config: Config): (r: Outcome<PyException>)
    ensures "model_name" !in config ==>
      r == Fail(ConfigurationError("Missing required field: model_name"))
    ensures "model_name" in config && "context_size" !in config ==>
      r == Fail(ConfigurationError("Missing required field: context_size"))
    ensures "model_name" in config && "context_size" in config ==>
      (r.Pass? <==> IsInt(config["context_size"]))
    ensures "model_name" in config && "context_size" in config && r.Fail? ==>
      r.error == ConfigurationError("context_size must be an integer")
  {
    var missing := FirstMissing(RequiredFields, config);
    assert missing.None? ==> RequiredFields[0] in config && RequiredFields[1] in config;
    assert missing.Some? ==>
      if "model_name" !in config then missing.value == "model_name" else missing.value == "context_size"
    by {
      if missing.Some? {
        var i :| 0 <= i < |RequiredFields| && RequiredFields[i] == missing.value
                 && RequiredFields[i] !in config && forall j :: 0 <= j < i ==> RequiredFields[j] in config;
        assert i == 0 || RequiredFields[0] in config;
      }
    }
    assert "Missing required field: " + "model_name" == "Missing required field: model_name";
    assert "Missing required field: " + "context_size" == "Missing required field: context_size";
    match missing
    case Some(field) => Fail(ConfigurationError("Missing required field: " + field))
    case None =>
      if IsInt(config["context_size"]) then Pass
      else Fail(ConfigurationError("context_size must be an integer"))
  }

  /** `_validate_config`, walking the required fields in order. */
  method ValidateConfig(config: Config) returns (r: Outcome<PyException>)
    ensures r == ConfigCheck(config)
  {
    var i := 0;
    while i < |RequiredFields|
      invariant 0 <= i <= |RequiredFields|
      invariant forall j :: 0 <= j < i ==> RequiredFields[j] in config
    {
      if RequiredFields[i] !in config {
        return Fail(ConfigurationError("Missing required field: " + RequiredFields[i]));
      }
      i := i + 1;
    }
    assert RequiredFields[1] in config;
    if !IsInt(config["context_size"]) {
      return Fail(ConfigurationError("context_size must be an integer"));
    }
    return Pass;
  }

  /** A constructed client: its configuration passed validation. */
  datatype ContextProtocolClient = ContextProtocolClient(config: Config)
  {
    predicate Valid()
    {
      ConfigCheck(config).Pass?
    }

    /** `self.config["context_size"]` as an integer. */
    function ContextSize(): int
      requires Valid()
    {
      AsInt(config["context_size"])
    }

    /** `self.config["model_name"]` */
    function ModelName(): Value
      requires Valid()
    {
      config["model_name"]
    }
  }

  /** Constructing a client runs validation; a failure there is raised. */
  function Create(config: Config): (r: Result<ContextProtocolClient, PyException>)
    ensures r.Success? <==> ConfigCheck(config).Pass?
    ensures r.Success? ==> r.value.config == config && r.value.Valid()
    ensures r.Failure? ==> ConfigCheck(config) == Fail(r.error)
  {
    match ConfigCheck(config)
    case Pass => Success(ContextProtocolClient(config))
    case Fail(e) => Failure(e)
  }

  /** The record `_process_context` builds. */
  datatype Processed = Processed(
    model: Value,
    context: Value,
    messages: Value,
    originalContextLength: nat,
    truncated: bool)
  {
    /** The Python dictionary handed back as the response data. */
    function ToValue(): Value
    {
      Dict([("model", model),
            ("context", context),
            ("messages", messages),
            ("metadata", Dict([("original_context_length", Int(originalContextLength)),
                               ("truncated", Bool(truncated))]))])
    }
  }

  /**
   * `_process_context`: the context and the messages cut with `[:context_size]`,
   * the original context length and whether it exceeds the context size.
   * The context is sliced before the messages, so its error is the one raised.
   */
  function ProcessContext(client: ContextProtocolClient, context: Value, messages: Value)
    : (r: Result<Processed, PyException>)
    requires client.Valid()
    ensures r.Success? <==> Sliceable(context) && Sliceable(messages)
    ensures !Sliceable(context) ==> r == Failure(SliceError(context))
    ensures Sliceable(context) && !Sliceable(messages) ==> r == Failure(SliceError(messages))
    ensures r.Success? ==>
      && r.value.model == client.ModelName()
      && PrefixOf(r.value.context, context)
      && Len(r.value.context) == SliceLength(Len(context), client.ContextSize())
      && PrefixOf(r.value.messages, messages)
      && Len(r.value.messages) == SliceLength(Len(messages), client.ContextSize())
      && r.value.originalContextLength == Len(context)
      && (r.value.truncated <==> Len(context) > client.ContextSize())
  {
    var n := client.ContextSize();
    match Slice(context, n)
    case Failure(e) => Failure(e)
    case Success(cut) =>
      match Slice(messages, n)
      case Failure(e) => Failure(e)
      case Success(kept) =>
        Success(Processed(client.ModelName(), cut, kept, Len(context), Len(context) > n))
  }

  /** `kwargs.get("context", "")` */
  function ContextArg(kwargs: map<string, Value>): Value
  {
    Arg(kwargs, "context", Str(""))
  }

  /** `kwargs.get("messages", [])` */
  function MessagesArg(kwargs: map<string, Value>): Value
  {
    Arg(kwargs, "messages", List([]))
  }

  /**
   * `execute`: a processed record with metadata naming the model, or, when
   * processing raises, a failed response without metadata. It never raises.
   */
  function Execute(client: ContextProtocolClient, kwargs: map<string, Value>): (r: Response)
    requires client.Valid()
    ensures WellFormed(r)
    ensures r.success <==> ProcessContext(client, ContextArg(kwargs), MessagesArg(kwargs)).Success?
    ensures r.success ==>
      && r.data == Some(ProcessContext(client, ContextArg(kwargs), MessagesArg(kwargs)).value.ToValue())
      && r.metadata == Some(Metadata(Source, Some(map["model" := client.ModelName()])))
    ensures !r.success ==>
      && r.error == Some(ExceptionText(ProcessContext(client, ContextArg(kwargs), MessagesArg(kwargs)).error))
      && r.metadata.None?
  {
    match ProcessContext(client, ContextArg(kwargs), MessagesArg(kwargs))
    case Success(p) => Succeeded(p.ToValue(), Some(Metadata(Source, Some(map["model" := client.ModelName()]))))
    case Failure(e) => Failed(e, None)
  }

  /** Building a client from an empty configuration fails on `model_name`. */
  lemma EmptyConfigRejected()
    ensures Create(map[]) == Failure(ConfigurationError("Missing required field: model_name"))
  {
  }

  /**
   * With a non-negative context size the context keeps its first
   * `min(len, context_size)` characters, at most `context_size` messages
   * survive, and `truncated` says exactly whether the context was shortened.
   */
  lemma NonNegativeSizeKeepsPrefix(client: ContextProtocolClient, context: string, messages: seq<Value>)
    requires client.Valid() && client.ContextSize() >= 0
    ensures var r := ProcessContext(client, Str(context), List(messages));
      && r.Success?
      && r.value.context == Str(context[..Min(|context|, client.ContextSize())])
      && |r.value.messages.items| <= client.ContextSize()
      && r.value.messages.items == messages[..|r.value.messages.items|]
      && (r.value.truncated <==> |r.value.context.s| < |context|)
  {
    var r := ProcessContext(client, Str(context), List(messages));
    assert r.value.context.s == context[..|r.value.context.s|];
  }

  /**
   * A negative context size is not rejected: it drops that many characters
   * from the end of the context, and the context is always reported as
   * truncated, even when it is empty.
   */
  lemma NegativeSizeDropsFromEnd(client: ContextProtocolClient, context: string)
    requires client.Valid() && client.ContextSize() < 0
    ensures var r := ProcessContext(client, Str(context), List([]));
      && r.Success?
      && r.value.context == Str(context[..Max(0, |context| + client.ContextSize())])
      && r.value.truncated
  {
    var r := ProcessContext(client, Str(context), List([]));
    assert r.value.context.s == context[..|r.value.context.s|];
  }

  /**
   * Processing is idempotent for a non-negative context size: reprocessing a
   * processed context and message list returns them unchanged, reports their
   * length as the original length and no truncation.
   */
  lemma ReprocessIsIdentity(client: ContextProtocolClient, context: Value, messages: Value)
    requires client.Valid() && client.ContextSize() >= 0
    requires ProcessContext(client, context, messages).Success?
    ensures var p := ProcessContext(client, context, messages).value;
      ProcessContext(client, p.context, p.messages)
        == Success(Processed(client.ModelName(), p.context, p.messages, Len(p.context), false))
  {
    var n := client.ContextSize();
    var p := ProcessContext(client, context, messages).value;
    SliceUnique(context, n, p.context);
    SliceUnique(messages, n, p.messages);
    SliceIdempotent(context, n);
    SliceIdempotent(messages, n);
  }

  /**
   * Without `context` or `messages` arguments the client processes the empty
   * string and the empty list, and the response names the configured model.
   */
  lemma ExecuteDefaults(client: ContextProtocolClient, kwargs: map<string, Value>)
    requires client.Valid()
    requires "context" !in kwargs && "messages" !in kwargs
    ensures var r := Execute(client, kwargs);
      && r.success
      && r.data == Some(Processed(client.ModelName(), Str(""), List([]), 0, 0 > client.ContextSize()).ToValue())
      && r.metadata == Some(Metadata("ContextProtocolClient", Some(map["model" := client.ModelName()])))
  {
    var p := ProcessContext(client, Str(""), List([])).value;
    assert p.context.s == [];
    assert p.messages.items == [];
  }

  /** A context that is not a string or a list fails the call, with no metadata. */
  lemma UnsliceableContextFails(client: ContextProtocolClient, kwargs: map<string, Value>)
    requires client.Valid()
    requires "context" in kwargs && !Sliceable(kwargs["context"])
    ensures Execute(client, kwargs)
      == Response(false, None, Some(ExceptionText(SliceError(kwargs["context"]))), None)
  {
  }
}
