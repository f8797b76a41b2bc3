# Tool registry and dispatch engine of the WhatsApp MCP gateway, in Dafny

The gateway keeps a process-wide catalogue of named tools. Each tool has a
handler and metadata: a description and a dict that maps parameter names to
parameter descriptions. An authenticated POST to `/run_tool` names a tool and
gives its keyword parameters. The gateway looks the tool up and calls the
handler. It then serializes the result into JSON, or reports the failure. From
the same metadata it derives a function-calling schema for LLM agents.

This project models that core and proves its properties:

- `Dicts`: Python dicts with string keys, as item sequences in insertion
  order. `Get` is `d.get(k)`. `Put` is `d[k] = v`: an existing key is
  overwritten where it stands, and a new key is appended.
- `Json`: the values handlers take and return. These are JSON values plus
  dates/datetimes and objects that expose `__dict__`. The module also has
  Python truthiness and `isoformat()`.
- `Serializer`: `serialize`.
- `ToolRegistry`: the `tools` and `tool_descriptions` dicts in a `Registry`
  class, `register_tool`, and `get_openai_tool_schema` with its nested loops.
- `Dispatcher`: `run_tool` with its two error tiers. Also the route that runs
  the credential check before dispatching.
- `Auth`: `verify_credentials`.
- `Handlers`: keyword-argument binding, plus the two handlers with local
  logic, `send_message` and `download_media`.

The WhatsApp functions the handlers delegate to appear as function-typed
parameters. The expected username and password are also parameters. The
placeholder defaults are the constants `Auth.DefaultAuthUser` and
`Auth.DefaultAuthPass`. Both are insecure, as the source's fallback values are.

The source registers twelve tools. `run_tool` reports its outcomes as HTTP
statuses 200, 400 and 500.

## Model

| member | source | states |
|---|---|---|
| `Dicts.Get` | whatsapp-mcp/whatsapp-mcp-server/main.py:94 | `d.get(k)` is None exactly when `k` is not a key; otherwise it is the value of the first item with key `k` |
| `Dicts.Put` | whatsapp-mcp/whatsapp-mcp-server/main.py:51-55 | `d[k] = v` on a missing key appends `(k, v)`; on a present key the length and key order stay the same |
| `Dicts.PutReplacesInPlace` | whatsapp-mcp/whatsapp-mcp-server/main.py:51-55 | overwriting a present key replaces exactly the item at its position (`d[i := (k, v)]`); nothing else moves |
| `Dicts.PutTwice` | whatsapp-mcp/whatsapp-mcp-server/main.py:51-55 | storing twice under one key equals storing the second value once (last writer wins) |
| `Dicts.GetPut` | whatsapp-mcp/whatsapp-mcp-server/main.py:51-55 | after `d[k] = v`, `k` reads `v` and every other key reads what it read before |
| `Dicts.PutKeepsUniqueKeys` | whatsapp-mcp/whatsapp-mcp-server/main.py:51-55 | assignment keeps the dict's keys unique |
| `Dicts.PutSameKeys` | whatsapp-mcp/whatsapp-mcp-server/main.py:51-55 | two dicts with the same key list still share it after both store under the same name, as `tools` and `tool_descriptions` do |
| `Dicts.PutItems` | whatsapp-mcp/whatsapp-mcp-server/main.py:51-55 | each item after assignment is either the new item or the item that stood there before |
| `Json.Truthy` | whatsapp-mcp/whatsapp-mcp-server/main.py:192 | the truth tests `if not recipient` (and `if file_path` at line 219): exactly None, False, 0, `""`, `[]` and `{}` are false |
| `Json.ZeroPad` | whatsapp-mcp/whatsapp-mcp-server/main.py:38 | zero-padded decimal digits: all digits, reading back to `n`, exactly `width` long when `n` fits |
| `Json.DecimalFits` | whatsapp-mcp/whatsapp-mcp-server/main.py:38 | a number below 10^w has at most w decimal digits |
| `Json.IsoFormat` | whatsapp-mcp/whatsapp-mcp-server/main.py:37-38 | `obj.isoformat()`: a date gives its `YYYY-MM-DD` string; a datetime gives that string, then `T`, then the isoformat of its time of day |
| `Json.DateIsoLayout` | whatsapp-mcp/whatsapp-mcp-server/main.py:37-38 | a date's isoformat is 10 characters, `YYYY-MM-DD`, and each slot holds exactly that field's zero-padded digits |
| `Json.FractionLayout` | whatsapp-mcp/whatsapp-mcp-server/main.py:37-38 | the microsecond part is empty when the microseconds are zero, and otherwise a `.` followed by their six-digit padding |
| `Json.TimeIsoLayout` | whatsapp-mcp/whatsapp-mcp-server/main.py:37-38 | a time of day renders as `HH:MM:SS` (8 characters), plus `.ffffff` (15 in all) only when microseconds are nonzero; each slot holds that field's zero-padded digits |
| `Json.IsoFormatLayout` | whatsapp-mcp/whatsapp-mcp-server/main.py:37-38 | valid date or datetime: length 10, 19 or 26, separators in place, every field recoverable from its digits |
| `Json.IsoFormatInjective` | whatsapp-mcp/whatsapp-mcp-server/main.py:37-38 | two valid dates/datetimes with the same isoformat string are equal |
| `Serializer.Serialize` | whatsapp-mcp/whatsapp-mcp-server/main.py:36-46 | output is plain JSON; a date becomes its isoformat string; a list keeps its length; a dict or attribute object becomes a dict with as many items; a primitive is unchanged |
| `Serializer.SerializeKeepsKeys` | whatsapp-mcp/whatsapp-mcp-server/main.py:41-44 | a serialized dict or attribute object has the original keys in the original order |
| `Serializer.SerializeListElement` | whatsapp-mcp/whatsapp-mcp-server/main.py:39-40 | element i of a serialized list is the serialization of element i |
| `Serializer.SerializeDictItem` | whatsapp-mcp/whatsapp-mcp-server/main.py:41-42 | item i of a serialized dict keeps its key and carries the serialized value |
| `Serializer.SerializeObjectAsDict` | whatsapp-mcp/whatsapp-mcp-server/main.py:43-44 | an object serializes exactly as the dict of its attributes |
| `Serializer.SerializePlainIdentity` | whatsapp-mcp/whatsapp-mcp-server/main.py:36-46 | a value that is already JSON at every depth is returned unchanged |
| `Serializer.SerializeIdempotent` | whatsapp-mcp/whatsapp-mcp-server/main.py:36-46 | `serialize(serialize(x)) == serialize(x)` |
| `Serializer.SerializeFixedPoints` | whatsapp-mcp/whatsapp-mcp-server/main.py:36-46 | `serialize(x) == x` exactly when `x` contains no date and no attribute object |
| `ToolRegistry.ParamsOrEmpty` | whatsapp-mcp/whatsapp-mcp-server/main.py:54 | `params or {}`: None gives the empty dict, a dict is kept |
| `ToolRegistry.Registry.constructor` | whatsapp-mcp/whatsapp-mcp-server/main.py:32-33 | both registry dicts start empty, and the registry invariant holds |
| `ToolRegistry.Registry.RegisterTool` | whatsapp-mcp/whatsapp-mcp-server/main.py:49-57 | `tools` becomes `tools[name] = func` and `tool_descriptions` becomes `tool_descriptions[name] = {description, params or {}}`; the decorator returns `func`; both dicts keep unique, identical key lists |
| `ToolRegistry.Registry.OpenAiToolSchema` | whatsapp-mcp/whatsapp-mcp-server/main.py:227-249 | one entry per registered tool, in `tool_descriptions` order: name and description copied, `type` is `"object"`, properties are the declared params in order, each `{"type": "string", description}`, and `required` is the param names in declaration order |
| `ToolRegistry.ParameterProperties` | whatsapp-mcp/whatsapp-mcp-server/main.py:237-243 | the inner loop: one `{"type": "string", description}` property per declared param, in declaration order, and `required` equal to the param names in that order |
| `ToolRegistry.DescribedProperty` | whatsapp-mcp/whatsapp-mcp-server/main.py:237-243 | looking up a name in the derived properties finds a string property with that param's description exactly when the name is a declared param |
| `ToolRegistry.PropertyJson` | whatsapp-mcp/whatsapp-mcp-server/main.py:239-242 | one property renders as `{"type": ..., "description": ...}` holding the schema's strings |
| `ToolRegistry.PropertiesJson` | whatsapp-mcp/whatsapp-mcp-server/main.py:239-242 | the `properties` dict renders with the property names as keys in order, each value the rendered property |
| `ToolRegistry.RequiredJson` | whatsapp-mcp/whatsapp-mcp-server/main.py:243 | the `required` list renders as the list of the names as strings, in order |
| `ToolRegistry.ParametersJson` | whatsapp-mcp/whatsapp-mcp-server/main.py:231-235 | the parameters object renders as plain JSON with keys `type`, `properties`, `required` in that order, holding the kind, the rendered properties and the rendered required list |
| `ToolRegistry.ToolSchemaJson` | whatsapp-mcp/whatsapp-mcp-server/main.py:245-249 | a schema entry renders as plain JSON with keys `name`, `description`, `parameters` in that order, holding the name, the description and the rendered parameters object |
| `ToolRegistry.RenderedSchema` | whatsapp-mcp/whatsapp-mcp-server/main.py:230-249 | the JSON entry derived from a tool's metadata carries the registered name and description and type `"object"`; looking a name up in its properties finds `{"type": "string", "description": desc}` exactly for a declared param; `required` lists the declared params in order |
| `ToolRegistry.RenderedProperty` | whatsapp-mcp/whatsapp-mcp-server/main.py:237-242 | a lookup in the rendered properties dict finds the string property of a declared param, and nothing for an undeclared name |
| `ToolRegistry.OpenAiToolsJson` | whatsapp-mcp/whatsapp-mcp-server/main.py:251 | the schema list renders as a plain JSON array with one rendered entry per tool |
| `Dispatcher.Reply` | whatsapp-mcp/whatsapp-mcp-server/main.py:98-102 | a returned value gives status 200 with body `serialize(result)`, which is plain JSON; a raise with message m gives 500 `{"error": m}` |
| `Dispatcher.ReplyPlain` | whatsapp-mcp/whatsapp-mcp-server/main.py:98-99 | a handler result that is already plain JSON is sent with status 200 exactly as returned |
| `Dispatcher.RunTool` | whatsapp-mcp/whatsapp-mcp-server/main.py:90-102 | status 400 exactly when the tool is unregistered, with body `{"error": "Tool '<name>' not found"}`; otherwise the handler's outcome decides 200 (body the serialized value) or 500 (body `{"error": m}`); no other status |
| `Dispatcher.RunToolRegistered` | whatsapp-mcp/whatsapp-mcp-server/main.py:94-99 | a registered name is answered by calling its handler with the request's params |
| `Dispatcher.RunToolReturnsPlain` | whatsapp-mcp/whatsapp-mcp-server/main.py:94-99 | a registered handler that returns plain JSON has it sent with status 200, unchanged |
| `Dispatcher.NotFoundCallsNoHandler` | whatsapp-mcp/whatsapp-mcp-server/main.py:94-96 | for an unregistered name the response does not depend on any registered handler |
| `Dispatcher.RunToolAfterRegister` | whatsapp-mcp/whatsapp-mcp-server/main.py:94-99 | after `tools[name] = h`, requests for `name` are answered by `h`; requests for other names are answered as before |
| `Dispatcher.RunToolRoute` | whatsapp-mcp/whatsapp-mcp-server/main.py:85-89 | for a request that carries Basic credentials: 401 with detail "Invalid credentials" and `WWW-Authenticate: Basic` exactly when either credential mismatches; otherwise the dispatcher's response |
| `Auth.VerifyCredentials` | whatsapp-mcp/whatsapp-mcp-server/main.py:20-28 | accepts, returning the username, exactly when both username and password equal the configured ones; otherwise the 401 Basic challenge |
| `Auth.OneCharacterOffIsRejected` | whatsapp-mcp/whatsapp-mcp-server/main.py:21-22 | a username or password off by one character is rejected even when the other field matches |
| `Handlers.FirstUnexpected` | whatsapp-mcp/whatsapp-mcp-server/main.py:98 | finds a key that names no parameter exactly when such a key exists |
| `Handlers.Missing` | whatsapp-mcp/whatsapp-mcp-server/main.py:98 | the parameters that no key supplies |
| `Handlers.Arguments` | whatsapp-mcp/whatsapp-mcp-server/main.py:98 | when every parameter has a key, the bound arguments in parameter order |
| `Handlers.SerialListEndsWithAnd` | whatsapp-mcp/whatsapp-mcp-server/main.py:98 | CPython's list of three or more missing argument names ends with `, and 'last'` |
| `Handlers.ThreeMissingNames` | whatsapp-mcp/whatsapp-mcp-server/main.py:98 | three missing names are listed as `'a', 'b', and 'c'` |
| `Handlers.Bind` | whatsapp-mcp/whatsapp-mcp-server/main.py:98 | `func(**params)` binds exactly when the keys are the parameter names; the arguments are then the values under those names, in parameter order |
| `Handlers.BindExactPair` | whatsapp-mcp/whatsapp-mcp-server/main.py:98 | keys that are exactly two distinct parameter names, in either order, bind to the values under those names, in parameter order |
| `Handlers.SendMessage` | whatsapp-mcp/whatsapp-mcp-server/main.py:191-195 | a falsy recipient gives `{"success": False, "message": "Recipient must be provided"}`; otherwise the sender's `(success, status_message)` pair becomes `{"success", "message"}`, or the sender's raise passes through |
| `Handlers.FailureBody` | whatsapp-mcp/whatsapp-mcp-server/main.py:193 | the `{"success": False, "message": m}` body is plain JSON |
| `Handlers.SendMessageCall` | whatsapp-mcp/whatsapp-mcp-server/main.py:187-195 | `send_message(**params)`: when the keys are exactly `recipient` and `message`, in either order, the body runs on the values under them; any other key set raises |
| `Handlers.SendMessageTool` | whatsapp-mcp/whatsapp-mcp-server/main.py:187-195 | the registered `send_message`: with exactly the keys `recipient` and `message`, in either order, it runs the body on their values; a missing `recipient` or `message`, or any other key, raises |
| `Handlers.EmptyRecipientSkipsSender` | whatsapp-mcp/whatsapp-mcp-server/main.py:192-193 | with a falsy recipient the outcome is the same whatever the sender does |
| `Handlers.SendMessageToolRefuses` | whatsapp-mcp/whatsapp-mcp-server/main.py:187-193 | the registered `send_message`, called with exactly `recipient` and `message` in either order and a falsy recipient, returns the refusal body |
| `Handlers.DownloadMedia` | whatsapp-mcp/whatsapp-mcp-server/main.py:217-222 | a truthy path gives exactly `{"success": True, "message": "Media downloaded successfully", "file_path": path}`; a falsy path gives exactly `{"success": False, "message": "Failed to download media"}`; a raise passes through |
| `Handlers.DownloadMediaFields` | whatsapp-mcp/whatsapp-mcp-server/main.py:217-222 | read back from a returned result: `success` is the truth of the path, and `file_path` is a key, holding the path, exactly when the path is truthy |
| `Handlers.DownloadMediaCall` | whatsapp-mcp/whatsapp-mcp-server/main.py:213-222 | `download_media(**params)`: when the keys are exactly `message_id` and `chat_jid`, in either order, the body runs on the values under them; any other key set raises |
| `Handlers.DownloadMediaTool` | whatsapp-mcp/whatsapp-mcp-server/main.py:213-222 | the registered `download_media`: with exactly the keys `message_id` and `chat_jid`, in either order, it runs the body on their values; a missing `message_id` or `chat_jid`, or any other key, raises |
| `Handlers.SendMessageWithoutRecipient` | whatsapp-mcp/whatsapp-mcp-server/main.py:187-195 | end to end: with `send_message` registered, a request whose keys are exactly `recipient` and `message`, in either order, with a falsy recipient is answered 200 with the "Recipient must be provided" body |

## Left out

- HTTP plumbing is not modelled: FastAPI routing, `JSONResponse`, `Depends`, `HTTPException`, the pydantic `ToolRequest` defaults, async handlers and the uvicorn dev server. Statuses, bodies and headers are plain values. The 401 body `{"detail": ...}` follows FastAPI's default rendering of `HTTPException`.
- Requests without usable Basic credentials: `HTTPBasic()` (main.py:16, 88) runs before `verify_credentials` and answers a missing `Authorization` header with 401 "Not authenticated" and a malformed one with 401 "Invalid authentication credentials". `Auth.Credentials` are always present, so these answers are not modelled and `Dispatcher.RunToolRoute` covers only requests that carry Basic credentials.
- `GET /tools` returns the `Registry.descriptions` field as it is. It has no logic of its own, so it has no member.
- Static UI mount and file serving: I/O.
- Loading the two credentials from the environment or a `.env` file: they are parameters.
- `Auth.VerifyCredentials`: `secrets.compare_digest` is modelled as string equality. Its constant-time behaviour cannot be stated in Dafny. The TypeError it raises for non-ASCII strings is also left out.
- The WhatsApp functions the handlers call are foreign code. They are function-typed parameters. The ten handlers that only delegate to them (main.py:127-185 and main.py:197-211), with their default parameter values, are not modelled. Neither are the literal descriptions and params of the twelve registrations.
- `Handlers.Bind`: binding is modelled for functions whose parameters are all required, which covers the two modelled handlers. The wording of its TypeError messages follows CPython up to 3.12 and is not part of a stated contract. From CPython 3.13, an unexpected keyword with a close match also gets a `Did you mean` suggestion, which is not modelled.
- `Handlers.SendMessage`: a sender that returns something other than a pair makes the tuple unpacking raise. This is covered only by the sender's `SendRaised` case (`Handlers.SendReply`).
- Time-zone-aware datetimes and their UTC offset in `isoformat()`. Also `datetime.time` values, which the source does not treat as temporal.
- Floating-point numbers.
- Dict keys that are not strings.
- Values that are none of the listed kinds and have no `__dict__`, such as tuples and sets. The serializer returns them unchanged, contents included.
- Objects that override truthiness (`__bool__`, `__len__`).
- Cyclic object graphs: the source would not terminate on them; a Dafny datatype is finite.
- `Dispatcher.Outcome`: `Raised` stands for exceptions that are instances of `Exception`, which the `except Exception` of `run_tool` catches. A `BaseException` that is not an `Exception`, such as `SystemExit` or `KeyboardInterrupt`, escapes `run_tool` and gets no response from it. The model cannot represent it, so `Dispatcher.RunTool` promises one of 200, 400 and 500 only for handlers that raise `Exception` subclasses.
- Exceptions raised by `serialize` itself or by rendering the response inside the `try` block (deep recursion, non-JSON content). They would also be answered with status 500.
- The concurrency rules for the registry (registration before serving): the model is sequential.
- whatsapp-mcp/whatsapp-dashboard/src/components/ChatList.jsx: UI rendering, with no logic to state. It is not part of this model.
