# crewai_mcp_adapter adapters, modelled in Dafny

This project models the three self-contained adapters of the `crewai_adapters`
package. Each one validates its configuration when it is built and answers
`execute(**kwargs)` with an `AdapterResponse`:

- `ContextProtocolClient` (`crewai_adapters/context_protocol.py`). It requires a
  `model_name` and an integer `context_size`. It cuts a context and a message
  list to `context_size` with Python's `[:n]` slice. It reports the original
  context length and a `truncated` flag.
- `ToolsAdapter` (`crewai_adapters/tools.py`). It requires a `"tools"` list. It
  indexes the entries by their `"name"` with a dict comprehension, so a later
  duplicate wins. It looks up the requested tool and echoes the call back.
  Every exception becomes a failed response without metadata.
- `MathServerAdapter` (`examples/math_server.py`). This is a class whose tool
  table (`add`, `multiply`) is set once by its constructor. `execute` dispatches
  by name, binds the parameters to `(a, b)` of the bound method, runs Python's
  `+` or `*`, and reports every outcome with metadata.

Files:

- `wrappers.dfy`: `Option`, `Result` and `Outcome`.
- `py_values.dfy` (module `PyValues`): the Python values the adapters handle.
  A dict keeps its insertion order. The file also holds the exceptions (`ConfigurationError`,
  `KeyError`, `TypeError`, `OverflowError`) and `str(e)`, truthiness, hashability and key equality
  (`True` is the key `1`), `str()` of simple values, `len` and the slice `x[:n]`.
- `adapter_types.dfy` (module `AdapterTypes`): `AdapterConfig` as a string-keyed
  map, `AdapterResponse`, metadata, and the envelope invariant `WellFormed`.
  `WellFormed` says a success has data and no error, and a failure has an error and no data.
- `context_protocol.dfy`, `tools_adapter.dfy`, `math_server.dfy`: one module per
  adapter.

The two package adapters are pure: a datatype holding the configuration, a
`Create` function that runs validation, and an `Execute` function. In the model,
`execute` cannot change the configuration or the tool list. The math adapter is a
class with `const` fields `config` and `tools`. Its constructor sets them, and
nothing updates them afterwards.

The model shows these behaviours of `ToolsAdapter`:

- An empty tool list is accepted.
- An unknown tool gives `"Tool not found: <name>"`. The repository's tests of
  other adapter classes expect `"Tool <name> not found"` instead
  (tests/test_basic_adapter.py:83, tests/test_mcp_adapter.py:51).
- The not-found response carries no metadata.
- An entry without `"name"` is not skipped. It makes every call fail.

It also shows these behaviours of the other two adapters:

- A negative `context_size` is accepted. It drops characters from the end and
  always reports `truncated`.
- `MathServerAdapter.execute` raises, not returns, when `tool_name` is a non-empty
  list or dict. The membership test that hashes it stands outside the `try`.

## Model

| member | source | states |
|---|---|---|
| `PyValues.HashKey` | crewai_adapters/tools.py:68-70 | dictionary key identity: a bool is the integer key 0 or 1, every other hashable value is its own key |
| `PyValues.Prefix` | crewai_adapters/context_protocol.py:73-74 | `s[:n]` is a prefix of `s` of length `min(len, n)` for `n >= 0` and `max(0, len + n)` for `n < 0` |
| `PyValues.Slice` | crewai_adapters/context_protocol.py:73-74 | slicing succeeds exactly on strings and lists, yields a prefix of the same kind with the slice length, and otherwise raises the interpreter's `TypeError` |
| `PyValues.SliceUnique` | crewai_adapters/context_protocol.py:73-74 | any same-kind prefix with the slice's length is the slice, so prefix plus length characterise `x[:n]` |
| `PyValues.SliceIdempotent` | crewai_adapters/context_protocol.py:73 | `x[:n][:n] == x[:n]` for `n >= 0` |
| `ContextProtocol.FirstMissing` | crewai_adapters/context_protocol.py:14-17 | the result is the first required field absent from the config, and every field before it is present; none iff all are present |
| `ContextProtocol.ConfigCheck` | crewai_adapters/context_protocol.py:12-20 | missing `model_name` is reported first, then missing `context_size`; with both present validation passes iff `context_size` is an int, else "context_size must be an integer" |
| `ContextProtocol.ValidateConfig` | crewai_adapters/context_protocol.py:12-20 | the loop over the required fields followed by the int check decides exactly as `ConfigCheck` |
| `ContextProtocol.Create` | crewai_adapters/context_protocol.py:12-20 | construction succeeds iff validation passes, keeps the config, and otherwise raises validation's error |
| `ContextProtocol.ProcessContext` | crewai_adapters/context_protocol.py:57-81 | the record's model is `model_name`; context and messages are prefixes of the inputs with the Python slice length; `original_context_length` is the input length; `truncated` iff that length exceeds `context_size`; a non-sliceable context (checked first) or message list raises |
| `ContextProtocol.Execute` | crewai_adapters/context_protocol.py:22-55 | envelope invariant; success iff processing succeeds, with the processed record as data and metadata `source = "ContextProtocolClient"`, `additional_data = {"model": model_name}`; failure carries `str(e)` and no metadata |
| `ContextProtocol.EmptyConfigRejected` | crewai_adapters/context_protocol.py:14-17 | an empty config is rejected with "Missing required field: model_name" |
| `ContextProtocol.NonNegativeSizeKeepsPrefix` | crewai_adapters/context_protocol.py:73-77 | for `context_size >= 0` the context becomes its first `min(len, context_size)` characters, at most `context_size` messages remain as a prefix, and `truncated` iff the context was shortened |
| `ContextProtocol.NegativeSizeDropsFromEnd` | crewai_adapters/context_protocol.py:73-77 | a negative `context_size` drops that many characters from the end and always reports `truncated`, even for an empty context |
| `ContextProtocol.ReprocessIsIdentity` | crewai_adapters/context_protocol.py:71-79 | reprocessing a processed context and message list with a non-negative size returns them unchanged with `truncated = false` |
| `ContextProtocol.ExecuteDefaults` | crewai_adapters/context_protocol.py:33-49 | without `context` and `messages` the call processes `""` and `[]` and succeeds with metadata naming the model |
| `ContextProtocol.UnsliceableContextFails` | crewai_adapters/context_protocol.py:34-55 | a context that is neither a string nor a list gives a failed response with the slice error text and no metadata |
| `ToolsAdapter.ConfigCheck` | crewai_adapters/tools.py:12-18 | validation passes iff `"tools"` is present and a list (empty allowed); otherwise "Missing required tools configuration" or "Tools configuration must be a list" |
| `ToolsAdapter.Create` | crewai_adapters/tools.py:12-18 | construction succeeds iff validation passes, keeps the config, and otherwise raises validation's error |
| `ToolsAdapter.NameOf` | crewai_adapters/tools.py:68 | `tool["name"]` as a key succeeds iff the entry is a dict with a hashable `"name"`; a dict without one raises `KeyError('name')` |
| `ToolsAdapter.BuildIndex` | crewai_adapters/tools.py:68 | the comprehension succeeds iff every entry's name can be read; otherwise it raises the error of the first entry that cannot |
| `ToolsAdapter.LastNamed` | crewai_adapters/tools.py:68-73 | reference lookup: the index of the last entry carrying the key, with no later entry carrying it; none iff no entry carries it |
| `ToolsAdapter.IndexSelectsLastNamed` | crewai_adapters/tools.py:68-73 | the built index contains a key iff some entry carries it, and maps it to the last such entry |
| `ToolsAdapter.EchoFields` | crewai_adapters/tools.py:76-82 | the echo record holds `tool_name`, `status = "executed"`, the parameters unchanged and the selected entry as `config` |
| `ToolsAdapter.ExecuteTool` | crewai_adapters/tools.py:55-84 | an unreadable entry, then an unhashable name, then an unknown name ("Tool not found: <name>") raise in that order; otherwise the echo of the last entry with that name |
| `ToolsAdapter.Execute` | crewai_adapters/tools.py:20-53 | envelope invariant; success iff `_execute_tool` succeeds, with its record as data and metadata `source = "ToolsAdapter"`, `additional_data = {"tool": tool_name}`; failure carries `str(e)` and no metadata |
| `ToolsAdapter.EmptyConfigRejected` | crewai_adapters/tools.py:14-15 | an empty config is rejected with "Missing required tools configuration" |
| `ToolsAdapter.EmptyToolListFindsNothing` | crewai_adapters/tools.py:17-18 | an empty tool list is accepted and every call with a hashable name then fails with "Tool not found: <name>" |
| `ToolsAdapter.UnknownToolFails` | crewai_adapters/tools.py:70-71 | a name no entry carries (an absent name is `None`) yields exactly `success = false`, "Tool not found: <name>", no data, no metadata |
| `ToolsAdapter.MissingNameFailsEveryCall` | crewai_adapters/tools.py:68 | one dict entry lacking `"name"` makes every call fail without metadata, whatever tool is asked for |
| `ToolsAdapter.SuccessEchoesCall` | crewai_adapters/tools.py:36-47 | a successful call's data echoes the name, status "executed", the parameters (default `{}`) and the last entry of that name; its metadata names the tool |
| `ToolsAdapter.LaterDuplicateWins` | crewai_adapters/tools.py:68-73 | of two entries with the same name the second is selected |
| `MathServer.RepeatLength` | examples/math_server.py:23-25 | repeating a sequence `n` times makes it `max(n, 0)` times as long |
| `MathServer.RepeatIsRepetition` | examples/math_server.py:23-25 | the recursive repetition meets the closed description: `max(n, 0)` times the length, element `i mod len(s)` at position `i` |
| `MathServer.RepeatValue` | examples/math_server.py:23-25 | `seq * n` on a string or list is that value repeated `n` times, of the same kind |
| `MathServer.Repetition` | examples/math_server.py:23-25 | `seq * count` succeeds iff the count fits `Py_ssize_t`, giving the repetition; otherwise `OverflowError("cannot fit 'int' into an index-sized integer")` |
| `MathServer.FirstUnexpected` | examples/math_server.py:68 | the first keyword other than `a` and `b` in dict order; none iff every keyword is `a` or `b` |
| `MathServer.BindError` | examples/math_server.py:68 | binding `**parameters` to the bound method's `(a, b)` fails, always with a `TypeError`, iff the parameters are not a dict with exactly the keywords `a` and `b` |
| `MathServer.MathServerAdapter.constructor` | examples/math_server.py:11-13 | an absent or empty config becomes `{}`, validation passes so construction never fails, and the tool table is registered |
| `MathServer.MathServerAdapter.ValidateConfig` | examples/math_server.py:15-17 | every configuration passes validation |
| `MathServer.MathServerAdapter.Add` | examples/math_server.py:19-21 | integer operands give the integer sum; `+` succeeds only on two ints, two strings or two lists and otherwise raises `TypeError` |
| `MathServer.MathServerAdapter.Multiply` | examples/math_server.py:23-25 | integer operands give the integer product; a string or list and an int, on either side, give its repetition; `*` succeeds only on those operands (with a count that fits `Py_ssize_t`) and otherwise raises `TypeError` or `OverflowError` |
| `MathServer.MathServerAdapter.RegisterTools` | examples/math_server.py:27-48 | the table has exactly the keys `add` and `multiply`, each tool named by its key with the `(a, b)` schema, bound to the matching method |
| `MathServer.MathServerAdapter.Call` | examples/math_server.py:66-68 | parameters other than exactly `a` and `b` raise binding's `TypeError`, named by the method's qualified name; otherwise the bound method runs on `a` and `b` |
| `MathServer.MathServerAdapter.Execute` | examples/math_server.py:50-86 | raises iff the tool name is truthy and unhashable; every returned response is well formed and carries metadata with `source = "MathServerAdapter"`; a name outside the table gives "Unknown tool: <name>"; a registered name succeeds iff the call does, with its result as data or `str(e)` as error |
| `MathServer.MultiplyCommutes` | examples/math_server.py:23-25 | `n * x == x * n` for an int `n` and an int or sequence `x` |
| `MathServer.ExecuteAddsIntegers` | examples/math_server.py:66-77 | `add` with integer `a`, `b` succeeds with the raw integer `a + b` as data and metadata |
| `MathServer.ExecuteMultipliesIntegers` | examples/math_server.py:66-77 | `multiply` with integer `a`, `b` succeeds with the raw integer `a * b` as data and metadata |
| `MathServer.UnknownToolFails` | examples/math_server.py:56-64 | an absent, empty or unregistered name returns `success = false`, "Unknown tool: <name>", no data, with metadata |
| `MathServer.WrongParametersFail` | examples/math_server.py:66-86 | a registered tool called without exactly `a` and `b` returns exactly the failure carrying the text of binding's `TypeError`, with metadata |
| `MathServer.MissingParametersReported` | examples/math_server.py:54-68 | `add` without parameters binds `{}` and fails with "MathServerAdapter.add() missing 2 required positional arguments: 'a' and 'b'" |
| `MathServer.SelfKeywordReported` | examples/math_server.py:66-86 | a `self` keyword fails with "MathServerAdapter.add() got multiple values for argument 'self'", as `self` is already bound |
| `MathServer.NonMappingParametersReported` | examples/math_server.py:66-86 | parameters that are not a dict fail with "<module>.MathServerAdapter.multiply() argument after ** must be a mapping, not NoneType" |
| `MathServer.MultiplyRepeatsString` | examples/math_server.py:23-25 | `"ab" * 3` and `3 * "ab"` are both `"ababab"` |
| `MathServer.HugeRepeatCountFails` | examples/math_server.py:66-86 | `multiply` with a repeat count above `sys.maxsize` fails with CPython's `OverflowError` text, with metadata |

## Left out

- Metadata timing: `create_metadata` lives in `crewai_adapters/utils`, which is not part of this model. Timestamps and durations come from the clock and are floats. Metadata is modelled as its source and its `additional_data`. `additional_data` is `None` when the caller passes none.
- `start_time` is popped from the keyword arguments and passed only to `create_metadata`. The model assumes that `create_metadata` accepts any `start_time` and any `additional_data` and never raises.
- ContextProtocol.Execute: success iff processing succeeds holds only under that assumption. `create_metadata` is called inside the `try`, so if it raised, the source would return a failed response without metadata.
- ToolsAdapter.Execute: success iff `_execute_tool` succeeds holds only under the same assumption about `create_metadata`, which is also called inside the `try`.
- `crewai_adapters/base.py` is not part of this model. Construction is assumed to store the configuration and run `_validate_config`, whose error is raised. The configuration is assumed not to change after construction.
- The text `str(parameters)` inside the tools adapter's `result` string is an opaque function argument `format`. This is Python's repr of dicts, lists and strings.
- Python's `str()` is modelled only for hashable values and empty containers. These are the only names that reach a message. CPython's limit on converting an int of more than 4300 digits to a string is not modelled. `Show` renders any int.
- MathServer.MathServerAdapter.Execute: an int `tool_name` of more than 4300 digits makes the "Unknown tool" f-string raise `ValueError` outside the `try`. The model returns the failed response instead, so "raises iff the name is truthy and unhashable" does not hold for such a name.
- ToolsAdapter.ExecuteTool: an int `tool_name` of more than 4300 digits makes the f-string raise `ValueError`, both in the not-found message and in the `result` text. The model gives "Tool not found: …" or a success instead of that caught error.
- The package's `ConfigurationError` is assumed to print its message unchanged. The texts of interpreter-raised exceptions are those of CPython 3.11 on a 64-bit platform (`sys.maxsize` is 2^63 - 1). The repository does not fix them. Later versions differ: from 3.12 a slice is hashable, so slicing a dict raises `KeyError(slice(None, n, None))`; from 3.13 an unexpected keyword close to `a` or `b` gets a "Did you mean" suffix.
- The module of `MathServerAdapter`, which prefixes the "argument after ** must be a mapping" text, depends on how the file is loaded (`__main__` as a script). It is a constructor parameter.
- Dicts are entry lists whose keys are assumed distinct, as a Python dict's are. Nothing enforces this; for a list with a repeated key, `Lookup` and `ExactlyAB` read the first entry.
- Values other than None, bool, int, str, list and dict (floats, tuples, objects) are not modelled. Dict keys are strings.
- `CrewAITool` is imported by `examples/math_server.py` but not defined in `crewai_adapters/tools.py`. It is modelled as a plain record. Its callable is one of the two bound methods.
- `async`/`await` is modelled as ordinary sequential evaluation. There is no concurrency.
- `crewai_adapters/client.py`, `AdapterRegistry`, `examples/math_example.py`, the package's `__init__` and the tests of classes absent from the source are not part of this model.
- MathServer.MathServerAdapter.Multiply: a repetition whose result would be longer than `sys.maxsize` returns the sequence. CPython raises `OverflowError` for a string and `MemoryError` for a list there. Running out of memory is not modelled either.
