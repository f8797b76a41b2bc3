/** `run_tool`: resolve a tool by name, call its handler with the request's
    parameters as keyword arguments, and turn the outcome into a response.

    There are two error tiers. A name that is not registered is the
    client's mistake: status 400 and no handler is called. A handler that
    raises, binding of the keyword arguments included, is reported as 500
    with the text of the exception. Otherwise the result is serialized and
    sent with status 200.
 */
module Dispatcher {
  import opened Dicts
  import opened Json
  import opened Serializer
  import opened Auth

  /** What calling a handler does: return a value, or raise an `Exception`
      whose `str(e)` is `message`. */
  datatype Outcome = Returned(value: Value) | Raised(message: string)

  /** A tool handler, called as `handler(**params)`. Binding the keyword
      arguments to the handler's parameters is part of the call, and a
      binding mismatch is a raise like any other. */
  type Handler = Items<Value> -> Outcome

  /** The body of a POST to /run_tool. */
  datatype ToolRequest = ToolRequest(tool: string, params: Items<Value>)

  datatype Response = Response(status: int, body: Value, headers: Items<string>)

  /** `{"error": message}` */
  function ErrorBody(message: string): Value {
    Dict([("error", Str(message))])
  }

  function NotFoundMessage(name: string): string {
    "Tool '" + name + "' not found"
  }

  /** The response for a handler that was found and called. */
  function Reply(o: Outcome): (resp: Response)
    ensures o.Returned? ==> resp == Response(200, Serialize(o.value), []) && Plain(resp.body)
    ensures o.Raised? ==> resp == Response(500, ErrorBody(o.message), [])
  {
    match o
    case Returned(v) => Response(200, Serialize(v), [])
    case Raised(m) => Response(500, ErrorBody(m), [])
  }

  /** A returned value that is already JSON is sent as it is. */
  lemma ReplyPlain(v: Value)
    requires Plain(v)
    ensures Reply(Returned(v)) == Response(200, v, [])
  {
    SerializePlainIdentity(v);
  }

  /** `run_tool` behind the credential check, given the registry's handler
      dict. */
  function RunTool(tools: Items<Handler>, req: ToolRequest): (resp: Response)
    ensures resp.status == 400 <==> req.tool !in Keys(tools)
    ensures req.tool !in Keys(tools) ==> resp == Response(400, ErrorBody(NotFoundMessage(req.tool)), [])
    ensures req.tool in Keys(tools) ==>
      var o := Get(tools, req.tool).value(req.params);
      && (resp.status == 200 <==> o.Returned?)
      && (resp.status == 500 <==> o.Raised?)
      && (o.Returned? ==> resp.body == Serialize(o.value) && Plain(resp.body))
      && (o.Raised? ==> resp.body == ErrorBody(o.message))
    ensures resp.status == 200 || resp.status == 400 || resp.status == 500
  {
    match Get(tools, req.tool)
    case None => Response(400, ErrorBody(NotFoundMessage(req.tool)), [])
    case Some(handler) => Reply(handler(req.params))
  }

  /** A registered name is answered by its handler's outcome. */
  lemma RunToolRegistered(tools: Items<Handler>, req: ToolRequest, h: Handler)
    requires Get(tools, req.tool) == Some(h)
    ensures RunTool(tools, req) == Reply(h(req.params))
  {
  }

  /** A registered handler that returns plain JSON has it sent with
      status 200 as it is. */
  lemma RunToolReturnsPlain(tools: Items<Handler>, req: ToolRequest, h: Handler, v: Value)
    requires Get(tools, req.tool) == Some(h) && h(req.params) == Returned(v) && Plain(v)
    ensures RunTool(tools, req) == Response(200, v, [])
  {
    RunToolRegistered(tools, req, h);
    ReplyPlain(v);
  }

  /** The not-found answer depends on the name alone: whatever handlers are
      registered under other names, none of them is consulted. */
  lemma NotFoundCallsNoHandler(tools: Items<Handler>, tools': Items<Handler>, req: ToolRequest)
    requires req.tool !in Keys(tools) && req.tool !in Keys(tools')
    ensures RunTool(tools, req) == RunTool(tools', req)
  {
  }

  /** Dispatch after `tools[name] = h`: the new handler answers for `name`,
      and every other name is answered as before. */
  lemma RunToolAfterRegister(tools: Items<Handler>, name: string, h: Handler, req: ToolRequest)
    ensures RunTool(Put(tools, name, h), req) ==
      if req.tool == name then Reply(h(req.params)) else RunTool(tools, req)
  {
    GetPut(tools, name, h, req.tool);
  }

  /** The POST /run_tool route: the credential check runs first, and only an
      authenticated request reaches the dispatcher. */
  function RunToolRoute(creds: Credentials, authUser: string, authPass: string,
                        tools: Items<Handler>, req: ToolRequest): (resp: Response)
    ensures resp.status == 401 <==> !(creds.username == authUser && creds.password == authPass)
    ensures resp.status == 401 ==>
      resp == Response(401, Dict([("detail", Str("Invalid credentials"))]), [("WWW-Authenticate", "Basic")])
    ensures resp.status != 401 ==> resp == RunTool(tools, req)
  {
    match VerifyCredentials(creds, authUser, authPass)
    case Rejected(status, detail, headers) => Response(status, Dict([("detail", Str(detail))]), headers)
    case Authenticated(_) => RunTool(tools, req)
  }
}
