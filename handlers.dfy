/** The two registered handlers that decide something themselves:
    `send_message` refuses an empty recipient before calling the WhatsApp
    sender, and `download_media` shapes its result from the file path that
    the WhatsApp downloader gives back. The WhatsApp calls are parameters.

    Each handler is called as `handler(**params)`, so keyword binding comes
    first: a key the function has no parameter for, or a parameter no key
    supplies, raises a TypeError before the body runs.
 */
module Handlers {
  import opened Dicts
  import opened Json
  import opened Dispatcher

  datatype Binding = Bound(args: seq<Value>) | BindError(message: string)

  /** The first key that names no parameter, if any. */
  function FirstUnexpected(keys: seq<string>, names: seq<string>): (r: Option<string>)
    ensures r.None? <==> forall k :: k in keys ==> k in names
    ensures r.Some? ==> r.value in keys && r.value !in names
  {
    if keys == [] then None
    else if keys[0] !in names then Some(keys[0])
    else FirstUnexpected(keys[1..], names)
  }

  /** The parameters no key supplies, in declaration order. */
  function Missing(names: seq<string>, keys: seq<string>): (r: seq<string>)
    ensures forall p :: p in r <==> p in names && p !in keys
  {
    if names == [] then []
    else (if names[0] in keys then [] else [names[0]]) + Missing(names[1..], keys)
  }

  /** `'a'`, `'a' and 'b'`, `'a', 'b', and 'c'`: how CPython lists missing
      argument names. */
  function QuotedNames(ps: seq<string>): string {
    if |ps| == 0 then ""
    else if |ps| == 1 then "'" + ps[0] + "'"
    else if |ps| == 2 then "'" + ps[0] + "' and '" + ps[1] + "'"
    else SerialList(ps)
  }

  /** Three or more names: comma separated, with `, and` before the last. */
  function SerialList(ps: seq<string>): string
    requires |ps| >= 2
    decreases |ps|
  {
    if |ps| == 2 then "'" + ps[0] + "', and '" + ps[1] + "'"
    else "'" + ps[0] + "', " + SerialList(ps[1..])
  }

  /** A list of three or more names ends in `, and 'last'`. */
  lemma {:induction false} SerialListEndsWithAnd(ps: seq<string>)
    requires |ps| >= 2
    ensures var s, tail := SerialList(ps), ", and '" + ps[|ps| - 1] + "'";
      |tail| <= |s| && s[|s| - |tail|..] == tail
    decreases |ps|
  {
    if |ps| > 2 {
      var rest := ps[1..];
      SerialListEndsWithAnd(rest);
      var head, r := "'" + ps[0] + "', ", SerialList(rest);
      var tail := ", and '" + ps[|ps| - 1] + "'";
      assert rest[|rest| - 1] == ps[|ps| - 1];
      assert (head + r)[|head + r| - |tail|..] == r[|r| - |tail|..];
    }
  }

  lemma ThreeMissingNames()
    ensures QuotedNames(["a", "b", "c"]) == "'a', 'b', and 'c'"
  {
  }

  function UnexpectedKeywordMessage(fname: string, k: string): string {
    fname + "() got an unexpected keyword argument '" + k + "'"
  }

  function MissingArgumentsMessage(fname: string, missing: seq<string>): string {
    fname + "() missing " + Decimal(|missing|) + " required positional argument"
    + (if |missing| == 1 then "" else "s") + ": " + QuotedNames(missing)
  }

  /** The arguments in parameter order, once every parameter has a key. */
  function Arguments(params: Items<Value>, names: seq<string>): (args: seq<Value>)
    requires forall p :: p in names ==> p in Keys(params)
    ensures |args| == |names| && forall i :: 0 <= i < |names| ==> Get(params, names[i]) == Some(args[i])
  {
    if names == [] then []
    else
      assert names[0] in names && forall p :: p in names[1..] ==> p in names;
      var v := Get(params, names[0]);
      [v.value] + Arguments(params, names[1..])
  }

  /** Binding `**params` to a function `fname` whose parameters `names` are
      all required: an unexpected keyword is reported first, then the
      missing ones; on success the arguments come in parameter order. */
  function Bind(fname: string, params: Items<Value>, names: seq<string>): (r: Binding)
    ensures r.Bound? <==>
      (forall k :: k in Keys(params) ==> k in names) && (forall p :: p in names ==> p in Keys(params))
    ensures r.Bound? ==>
      |r.args| == |names| && forall i :: 0 <= i < |names| ==> Get(params, names[i]) == Some(r.args[i])
  {
    match FirstUnexpected(Keys(params), names)
    case Some(k) => BindError(UnexpectedKeywordMessage(fname, k))
    case None =>
      var missing := Missing(names, Keys(params));
      if missing != [] then
        assert missing[0] in names && missing[0] !in Keys(params);
        BindError(MissingArgumentsMessage(fname, missing))
      else
        Bound(Arguments(params, names))
  }

  /** `{"success": False, "message": message}`, a plain JSON object. */
  function FailureBody(message: string): (b: Value)
    ensures Plain(b)
  {
    Dict([("success", Bool(false)), ("message", Str(message))])
  }

  /** What `whatsapp.send_message(recipient, message)` does: return the pair
      `(success, status_message)`, or raise. */
  datatype SendReply = Sent(success: Value, status: Value) | SendRaised(message: string)

  /** The body of `send_message(recipient, message)`. */
  function SendMessage(recipient: Value, message: Value, send: (Value, Value) -> SendReply): (r: Outcome)
    ensures !Truthy(recipient) ==> r == Returned(FailureBody("Recipient must be provided"))
    ensures Truthy(recipient) ==> match send(recipient, message)
      case Sent(ok, status) => r == Returned(Dict([("success", ok), ("message", status)]))
      case SendRaised(m) => r == Raised(m)
  {
    if !Truthy(recipient) then
      Returned(FailureBody("Recipient must be provided"))
    else
      match send(recipient, message)
      case Sent(ok, status) => Returned(Dict([("success", ok), ("message", status)]))
      case SendRaised(m) => Raised(m)
  }

  /** With an empty recipient the sender is never consulted: any two senders
      give the same outcome. */
  lemma EmptyRecipientSkipsSender(recipient: Value, message: Value,
                                  send: (Value, Value) -> SendReply, send': (Value, Value) -> SendReply)
    requires !Truthy(recipient)
    ensures SendMessage(recipient, message, send) == SendMessage(recipient, message, send')
  {
  }

  /** The keys of `params` are exactly `names`, in any order: the case in
      which `func(**params)` binds. */
  ghost predicate ExactKeys(params: Items<Value>, names: seq<string>) {
    forall k :: k in Keys(params) <==> k in names
  }

  /** `send_message(**params)`: the body runs on the values under `recipient` and
      `message` when those are exactly the keys, in either order; any other
      key set raises a TypeError from binding. */
  function SendMessageCall(send: (Value, Value) -> SendReply, params: Items<Value>): (o: Outcome)
    ensures ExactKeys(params, ["recipient", "message"]) ==>
      && "recipient" in Keys(params) && "message" in Keys(params)
      && o == SendMessage(Get(params, "recipient").value, Get(params, "message").value, send)
    ensures !ExactKeys(params, ["recipient", "message"]) ==> o.Raised?
  {
    BindExactPair("send_message", "recipient", "message", params);
    match Bind("send_message", params, ["recipient", "message"])
    case BindError(m) => Raised(m)
    case Bound(args) => SendMessage(args[0], args[1], send)
  }

  /** The `send_message` tool as registered: bind, then run the body. Called
      with exactly `recipient` and `message`, in either order, it runs the
      body on their values; a missing or an unexpected keyword raises before
      the body runs. */
  function SendMessageTool(send: (Value, Value) -> SendReply): (h: Handler)
    ensures forall params :: ExactKeys(params, ["recipient", "message"]) ==>
      && "recipient" in Keys(params) && "message" in Keys(params)
      && h(params) == SendMessage(Get(params, "recipient").value, Get(params, "message").value, send)
    ensures forall params :: "recipient" !in Keys(params) ==> h(params).Raised?
    ensures forall params :: "message" !in Keys(params) ==> h(params).Raised?
    ensures forall params, k :: k in Keys(params) && k != "recipient" && k != "message" ==> h(params).Raised?
  {
    var h: Handler := params => SendMessageCall(send, params);
    forall params | "recipient" !in Keys(params) || "message" !in Keys(params)
      ensures h(params).Raised?
    {
      assert "recipient" in ["recipient", "message"] && "message" in ["recipient", "message"];
    }
    forall params, k | k in Keys(params) && k != "recipient" && k != "message"
      ensures h(params).Raised?
    {
      assert k !in ["recipient", "message"];
    }
    h
  }

  /** `{"success": True, "message": ..., "file_path": path}` */
  function SuccessBody(path: Value): Value {
    Dict([("success", Bool(true)), ("message", Str("Media downloaded successfully")), ("file_path", path)])
  }

  /** The body of `download_media(message_id, chat_jid)`, given what
      `whatsapp.download_media` does. */
  function DownloadMedia(messageId: Value, chatJid: Value, download: (Value, Value) -> Outcome): (r: Outcome)
    ensures download(messageId, chatJid).Raised? ==> r == download(messageId, chatJid)
    ensures download(messageId, chatJid).Returned? ==>
      var path := download(messageId, chatJid).value;
      && r.Returned?
      && (Truthy(path) ==> r.value == SuccessBody(path))
      && (!Truthy(path) ==> r.value == FailureBody("Failed to download media"))
  {
    match download(messageId, chatJid)
    case Raised(m) => Raised(m)
    case Returned(path) =>
      if Truthy(path) then Returned(SuccessBody(path))
      else Returned(FailureBody("Failed to download media"))
  }

  /** What a caller reads from a returned `download_media` result: `success`
      is the truth of the path, and `file_path` is there, holding the path,
      exactly when the path is truthy. */
  lemma DownloadMediaFields(messageId: Value, chatJid: Value, download: (Value, Value) -> Outcome)
    requires download(messageId, chatJid).Returned?
    ensures var path, r := download(messageId, chatJid).value, DownloadMedia(messageId, chatJid, download);
      && r.Returned? && r.value.Dict?
      && Get(r.value.entries, "success") == Some(Bool(Truthy(path)))
      && ("file_path" in Keys(r.value.entries) <==> Truthy(path))
      && (Truthy(path) ==>
            Get(r.value.entries, "file_path") == Some(path)
            && Get(r.value.entries, "message") == Some(Str("Media downloaded successfully")))
  {
    var path := download(messageId, chatJid).value;
    if Truthy(path) {
      assert Keys(SuccessBody(path).entries) == ["success", "message", "file_path"];
    } else {
      assert Keys(FailureBody("Failed to download media").entries) == ["success", "message"];
    }
  }

  /** `download_media(**params)`: the body runs on the values under `message_id` and
      `chat_jid` when those are exactly the keys, in either order; any other
      key set raises a TypeError from binding. */
  function DownloadMediaCall(download: (Value, Value) -> Outcome, params: Items<Value>): (o: Outcome)
    ensures ExactKeys(params, ["message_id", "chat_jid"]) ==>
      && "message_id" in Keys(params) && "chat_jid" in Keys(params)
      && o == DownloadMedia(Get(params, "message_id").value, Get(params, "chat_jid").value, download)
    ensures !ExactKeys(params, ["message_id", "chat_jid"]) ==> o.Raised?
  {
    BindExactPair("download_media", "message_id", "chat_jid", params);
    match Bind("download_media", params, ["message_id", "chat_jid"])
    case BindError(m) => Raised(m)
    case Bound(args) => DownloadMedia(args[0], args[1], download)
  }

  /** The `download_media` tool as registered: bind, then run the body.
      Called with exactly `message_id` and `chat_jid`, in either order, it
      runs the body on their values; a missing or an unexpected keyword
      raises before the body runs. */
  function DownloadMediaTool(download: (Value, Value) -> Outcome): (h: Handler)
    ensures forall params :: ExactKeys(params, ["message_id", "chat_jid"]) ==>
      && "message_id" in Keys(params) && "chat_jid" in Keys(params)
      && h(params) == DownloadMedia(Get(params, "message_id").value, Get(params, "chat_jid").value, download)
    ensures forall params :: "message_id" !in Keys(params) ==> h(params).Raised?
    ensures forall params :: "chat_jid" !in Keys(params) ==> h(params).Raised?
    ensures forall params, k :: k in Keys(params) && k != "message_id" && k != "chat_jid" ==> h(params).Raised?
  {
    var h: Handler := params => DownloadMediaCall(download, params);
    forall params | "message_id" !in Keys(params) || "chat_jid" !in Keys(params)
      ensures h(params).Raised?
    {
      assert "message_id" in ["message_id", "chat_jid"] && "chat_jid" in ["message_id", "chat_jid"];
    }
    forall params, k | k in Keys(params) && k != "message_id" && k != "chat_jid"
      ensures h(params).Raised?
    {
      assert k !in ["message_id", "chat_jid"];
    }
    h
  }

  /** Keys that are exactly the two parameter names, in either order, bind
      to the values under those names, in parameter order. */
  lemma BindExactPair(fname: string, a: string, b: string, params: Items<Value>)
    requires a != b
    ensures ExactKeys(params, [a, b]) ==>
      && a in Keys(params) && b in Keys(params)
      && Bind(fname, params, [a, b]) == Bound([Get(params, a).value, Get(params, b).value])
  {
    if ExactKeys(params, [a, b]) {
      assert a in [a, b] && b in [a, b];
      var r := Bind(fname, params, [a, b]);
      assert r.Bound?;
    }
  }

  /** The registered `send_message` tool, called with a falsy recipient,
      returns the refusal without consulting the sender. */
  lemma SendMessageToolRefuses(send: (Value, Value) -> SendReply, params: Items<Value>)
    requires ExactKeys(params, ["recipient", "message"])
    requires "recipient" in Keys(params) && !Truthy(Get(params, "recipient").value)
    ensures SendMessageTool(send)(params) == Returned(FailureBody("Recipient must be provided"))
  {
    var h := SendMessageTool(send);
    assert h(params) == SendMessage(Get(params, "recipient").value, Get(params, "message").value, send);
  }

  /** End to end: a POST naming `send_message` with a falsy recipient is
      answered 200 with the "Recipient must be provided" body, and nothing
      is sent. */
  lemma SendMessageWithoutRecipient(tools: Items<Handler>, send: (Value, Value) -> SendReply,
                                    params: Items<Value>)
    requires Get(tools, "send_message") == Some(SendMessageTool(send))
    requires ExactKeys(params, ["recipient", "message"])
    requires "recipient" in Keys(params) && !Truthy(Get(params, "recipient").value)
    ensures RunTool(tools, ToolRequest("send_message", params))
            == Response(200, FailureBody("Recipient must be provided"), [])
  {
    SendMessageToolRefuses(send, params);
    RunToolReturnsPlain(tools, ToolRequest("send_message", params), SendMessageTool(send),
                        FailureBody("Recipient must be provided"));
  }
}
