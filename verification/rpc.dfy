/**
 * The JSON-RPC message handlers of the three servers that take MCP
 * messages as HTTP POSTs: the SSE bridge, the SSE server built on the MCP
 * `Server` class, and the plain SSE server. Each answers `initialize`,
 * `tools/list` and `tools/call`, echoes the request's `id` (`None` when it
 * has none), and answers any other method with error -32601. An exception a
 * handler lets escape ends the exchange without a response.
 */
module Rpc {
  import opened Wrappers
  import opened Values
  import opened Admin
  import Registry
  import Raghi
  import Strict

  /** The servers that route JSON-RPC messages. */
  datatype Server =
    | Bridge(urlBase: string)
    | ServerSse
    | PlainSse

  datatype InitializeResult =
    InitializeResult(protocolVersion: string, capabilities: Json, serverName: string, serverVersion: string)

  /** The `result` member of a response, or its `error` member. */
  datatype Reply =
    | Initialized(init: InitializeResult)
    | Tools(tools: seq<Registry.ToolDescriptor>)
    | Content(items: seq<Registry.TextContent>)
    | RpcError(code: int, message: string)

  datatype Response = Response(jsonrpc: string, id: Json, reply: Reply)

  const ProtocolVersion: string := "2025-06-18"
  const MethodNotFound: int := -32601

  /** What `initialize` reports: the two `Server`-based variants announce `listChanged`, the plain one does not. */
  function Initialization(s: Server): (r: InitializeResult)
    ensures r.protocolVersion == ProtocolVersion && r.serverVersion == "1.0.0"
    ensures r.serverName == if s.Bridge? then "raghi-mq-sse-server" else "ibm-mq-server"
    ensures !s.PlainSse? ==>
              r.capabilities == Obj([("experimental", Obj([])), ("tools", Obj([("listChanged", JBool(false))]))])
    ensures s.PlainSse? ==> r.capabilities == Obj([("tools", Obj([]))])
  {
    match s
    case Bridge(_) =>
      InitializeResult(ProtocolVersion, Obj([("experimental", Obj([])), ("tools", Obj([("listChanged", JBool(false))]))]),
                       "raghi-mq-sse-server", "1.0.0")
    case ServerSse =>
      InitializeResult(ProtocolVersion, Obj([("experimental", Obj([])), ("tools", Obj([("listChanged", JBool(false))]))]),
                       "ibm-mq-server", "1.0.0")
    case PlainSse =>
      InitializeResult(ProtocolVersion, Obj([("tools", Obj([]))]), "ibm-mq-server", "1.0.0")
  }

  /** The descriptors `tools/list` returns. */
  function Advertised(s: Server): seq<Registry.ToolDescriptor>
  {
    match s
    case Bridge(_) => Registry.CatalogTools()
    case ServerSse => Registry.CoreTools()
    case PlainSse => Registry.MinimalTools()
  }

  /** Whether the server's dispatcher has a handler for `name`. */
  predicate Dispatches(s: Server, name: Json)
  {
    if s.Bridge? then Raghi.ToolFor(name).Some? else name == JString("dspmq") || name == JString("runmqsc")
  }

  /**
   * A tool call on each server. An unknown name issues no request; the
   * plain server answers it with text and the others raise `ValueError`
   * (the bridge raises `TypeError` first for a name that cannot be a dict
   * key). Every call that succeeds answers exactly one text item.
   */
  function Call(s: Server, oracle: Oracle, name: Json, args: Json): (r: Run<seq<Registry.TextContent>>)
    ensures !Dispatches(s, name) && !(s.Bridge? && (name.JArray? || name.JObject?)) ==>
              && r.issued == []
              && (s.PlainSse? ==> r.value == Success([Registry.TextContent("text", "Unknown tool: " + Str(name))]))
              && (!s.PlainSse? ==> r.value == Failure(ValueError("Unknown tool: " + Str(name))))
    ensures s.Bridge? && (name.JArray? || name.JObject?) ==> r.issued == [] && r.value.Failure? && r.value.error.TypeError?
    ensures r.value.Success? ==> |r.value.value| == 1 && r.value.value[0].kind == "text"
    ensures s.Bridge? ==> r == Raghi.CallTool(Raghi.Config(Raghi.SseBridge, s.urlBase), oracle, name, args)
    ensures s.ServerSse? ==> r == Strict.CallTool(oracle, name, args)
    ensures s.PlainSse? ==>
              (var out := Strict.InlineCall(oracle, name, args);
               && r.issued == out.issued
               && (out.value.Failure? ==> r.value == Failure(out.value.error))
               && (out.value.Success? ==> r.value == Success([Registry.TextContent("text", out.value.value)])))
  {
    match s
    case Bridge(base) => Raghi.CallTool(Raghi.Config(Raghi.SseBridge, base), oracle, name, args)
    case ServerSse => Strict.CallTool(oracle, name, args)
    case PlainSse =>
      var out := Strict.InlineCall(oracle, name, args);
      match out.value
      case Failure(e) => Run(Failure(e), out.issued)
      case Success(text) => Run(Success([Registry.TextContent("text", text)]), out.issued)
  }

  function Method(message: seq<(string, Json)>): Json
  {
    Lookup(message, "method").GetOr(JNull)
  }

  function Id(message: seq<(string, Json)>): Json
  {
    Lookup(message, "id").GetOr(JNull)
  }

  /** `message.get("params", {})`. */
  function Params(message: seq<(string, Json)>): Json
  {
    Lookup(message, "params").GetOr(Obj([]))
  }

  predicate KnownMethod(m: Json)
  {
    m == JString("initialize") || m == JString("tools/list") || m == JString("tools/call")
  }

  /**
   * The message handler. `initialize` and `tools/list` issue no admin
   * request; `tools/call` reads `name` and `arguments` (default `{}`) from
   * `params` (default `{}`) and runs the server's dispatcher; anything else
   * is answered with `Method not found`.
   */
  function Handle(s: Server, oracle: Oracle, message: seq<(string, Json)>): (r: Run<Response>)
    ensures r.value.Success? ==> r.value.value.jsonrpc == "2.0" && r.value.value.id == Id(message)
    ensures Method(message) == JString("initialize") ==>
              r == Run(Success(Response("2.0", Id(message), Initialized(Initialization(s)))), [])
    ensures Method(message) == JString("tools/list") ==>
              r == Run(Success(Response("2.0", Id(message), Tools(Advertised(s)))), [])
    ensures !KnownMethod(Method(message)) ==>
              r == Run(Success(Response("2.0", Id(message), RpcError(MethodNotFound, "Method not found"))), [])
    ensures Method(message) == JString("tools/call") && !Params(message).JObject? ==>
              r == Run(Failure(AttributeError("'" + TypeName(Params(message)) + "' object has no attribute 'get'")), [])
    ensures Method(message) == JString("tools/call") && Params(message).JObject? ==>
              (var p := Params(message).fields;
               var out := Call(s, oracle, Lookup(p, "name").GetOr(JNull), Lookup(p, "arguments").GetOr(Obj([])));
               && r.issued == out.issued
               && (out.value.Failure? ==> r.value == Failure(out.value.error))
               && (out.value.Success? ==> r.value == Success(Response("2.0", Id(message), Content(out.value.value)))))
  {
    var id := Id(message);
    if Method(message) == JString("initialize") then
      Run(Success(Response("2.0", id, Initialized(Initialization(s)))), [])
    else if Method(message) == JString("tools/list") then
      Run(Success(Response("2.0", id, Tools(Advertised(s)))), [])
    else if Method(message) == JString("tools/call") then
      var params := Params(message);
      match Get(params, "name", JNull)
      case Failure(e) => Run(Failure(e), [])
      case Success(name) =>
        var out := Call(s, oracle, name, Lookup(params.fields, "arguments").GetOr(Obj([])));
        match out.value
        case Failure(e) => Run(Failure(e), out.issued)
        case Success(items) => Run(Success(Response("2.0", id, Content(items))), out.issued)
    else
      Run(Success(Response("2.0", id, RpcError(MethodNotFound, "Method not found"))), [])
  }

  /* ---------------------------------------------------------------------
   * properties
   * ------------------------------------------------------------------- */

  /** A response carries the error member exactly when the method is none of the three the servers know. */
  lemma MethodNotFoundIffUnknown(s: Server, oracle: Oracle, message: seq<(string, Json)>)
    ensures var r := Handle(s, oracle, message);
            (r.value.Success? && r.value.value.reply.RpcError?) <==> !KnownMethod(Method(message))
    ensures var r := Handle(s, oracle, message);
            r.value.Success? && r.value.value.reply.RpcError? ==> r.value.value.reply.code == MethodNotFound
  {
  }

  /** Every tool `tools/list` advertises is one the dispatcher handles, and every name it handles is advertised. */
  lemma AdvertisedToolsAreDispatched(s: Server, name: string)
    ensures (exists i :: 0 <= i < |Advertised(s)| && Advertised(s)[i].name == name) <==> Dispatches(s, JString(name))
  {
    var tools := Advertised(s);
    if s.Bridge? {
      Registry.CatalogMatchesHandlers();
      if Dispatches(s, JString(name)) {
        var t := Registry.ToolNamed(name).value;
        Registry.NameLookupRoundTrip(t, name);
        Registry.CatalogAdvertises(t);
      }
    } else {
      assert tools[0].name == "dspmq" && tools[1].name == "runmqsc" && |tools| == 2;
    }
  }

  /** The `name` and `arguments` members of a `tools/call` message's `params`. */
  lemma CallParams(name: Json, args: Json)
    ensures Lookup([("name", name), ("arguments", args)], "name") == Some(name)
    ensures Lookup([("name", name), ("arguments", args)], "arguments") == Some(args)
  {
    var fields := [("name", name), ("arguments", args)];
    assert fields[1..] == [("arguments", args)];
    assert Lookup(fields[1..], "name") == None;
  }

  /**
   * A `tools/call` for a name the server does not advertise issues no
   * request: the plain server answers `Unknown tool: <name>` as text, the
   * others end the exchange with `ValueError`.
   */
  lemma UnadvertisedToolIsRefused(s: Server, oracle: Oracle, id: Json, name: string, args: Json)
    requires forall i :: 0 <= i < |Advertised(s)| ==> Advertised(s)[i].name != name
    ensures var message := [("jsonrpc", JString("2.0")), ("id", id), ("method", JString("tools/call")),
                            ("params", Obj([("name", JString(name)), ("arguments", args)]))];
            var r := Handle(s, oracle, message);
            && r.issued == []
            && (s.PlainSse? ==> r.value == Success(Response("2.0", id,
                                                            Content([Registry.TextContent("text", "Unknown tool: " + name)]))))
            && (!s.PlainSse? ==> r.value == Failure(ValueError("Unknown tool: " + name)))
  {
    AdvertisedToolsAreDispatched(s, name);
    ToolsCallMessage(s, oracle, id, JString(name), args);
  }

  /** A `tools/call` message naming `name` answers what `Call` gives, wrapped in a response with the message's id. */
  lemma ToolsCallMessage(s: Server, oracle: Oracle, id: Json, name: Json, args: Json)
    ensures var message := [("jsonrpc", JString("2.0")), ("id", id), ("method", JString("tools/call")),
                            ("params", Obj([("name", name), ("arguments", args)]))];
            var r := Handle(s, oracle, message);
            var out := Call(s, oracle, name, args);
            && r.issued == out.issued
            && (out.value.Failure? ==> r.value == Failure(out.value.error))
            && (out.value.Success? ==> r.value == Success(Response("2.0", id, Content(out.value.value))))
  {
    var message := [("jsonrpc", JString("2.0")), ("id", id), ("method", JString("tools/call")),
                    ("params", Obj([("name", name), ("arguments", args)]))];
    assert message[0].0 == "jsonrpc" && message[1].0 == "id" && message[2].0 == "method" && message[3].0 == "params";
    assert Method(message) == JString("tools/call");
    assert Id(message) == id;
    var params := Obj([("name", name), ("arguments", args)]);
    assert Params(message) == params;
    CallParams(name, args);
  }

  /**
   * `create_queue` posted to the bridge: one MQSC request carrying
   * `DEFINE QLOCAL(Q1)` to the named queue manager.
   */
  lemma CreateQueueOverRpc(base: string, oracle: Oracle, id: Json)
    ensures var args := Obj([("qmgr_name", JString("QM1")), ("queue_name", JString("Q1")), ("queue_type", JString("local"))]);
            var message := [("id", id), ("method", JString("tools/call")),
                            ("params", Obj([("name", JString("create_queue")), ("arguments", args)]))];
            Handle(Bridge(base), oracle, message).issued
            == [AdminRequest(POST, base, "action/qmgr/QM1/mqsc", JsonBody(RunCommandBody(JString("DEFINE QLOCAL(Q1)"))))]
  {
    var args := Obj([("qmgr_name", JString("QM1")), ("queue_name", JString("Q1")), ("queue_type", JString("local"))]);
    var message := [("id", id), ("method", JString("tools/call")),
                    ("params", Obj([("name", JString("create_queue")), ("arguments", args)]))];
    assert message[0].0 == "id" && message[1].0 == "method" && message[2].0 == "params";
    assert Method(message) == JString("tools/call");
    var params := Obj([("name", JString("create_queue")), ("arguments", args)]);
    assert Params(message) == params;
    CallParams(JString("create_queue"), args);
    Raghi.CreateQueueExample(Raghi.Config(Raghi.SseBridge, base), oracle, JString("local"));
  }
}
