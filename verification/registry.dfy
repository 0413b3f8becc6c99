/**
 * The tool registry: the descriptors each server variant advertises through
 * `tools/list`, and the names its dispatcher accepts. The nineteen-tool
 * catalog is shared by the SSE bridge and the comprehensive stdio server;
 * the other variants advertise only `dspmq` and `runmqsc`.
 */
module Registry {
  import opened Wrappers

  /** One entry of an input schema's `properties` (all are strings here). */
  datatype Property = Property(name: string, kind: string, description: Option<string>, default: Option<string>)

  /** `{"type": "object", "properties": ..., "required": ...}`; `required` may be absent. */
  datatype InputSchema = InputSchema(properties: seq<Property>, required: Option<seq<string>>)

  datatype ToolDescriptor = ToolDescriptor(name: string, description: string, inputSchema: InputSchema)

  /** The tools of the nineteen-tool catalog, as keys of the dispatcher's handler table. */
  datatype ToolId =
    | Dspmq | Runmqsc
    | ListQueues | CreateQueue | DeleteQueue | GetQueueDepth | ClearQueue
    | ListChannels | StartChannel | StopChannel | PingChannel
    | PutMessage | GetMessage | BrowseMessages
    | GetQueueStats | GetChannelStatus | ListConnections
    | RefreshSecurity | DisplayAuth

  function Name(t: ToolId): string
  {
    match t
    case Dspmq => "dspmq"
    case Runmqsc => "runmqsc"
    case ListQueues => "list_queues"
    case CreateQueue => "create_queue"
    case DeleteQueue => "delete_queue"
    case GetQueueDepth => "get_queue_depth"
    case ClearQueue => "clear_queue"
    case ListChannels => "list_channels"
    case StartChannel => "start_channel"
    case StopChannel => "stop_channel"
    case PingChannel => "ping_channel"
    case PutMessage => "put_message"
    case GetMessage => "get_message"
    case BrowseMessages => "browse_messages"
    case GetQueueStats => "get_queue_stats"
    case GetChannelStatus => "get_channel_status"
    case ListConnections => "list_connections"
    case RefreshSecurity => "refresh_security"
    case DisplayAuth => "display_auth"
  }

  /** The handler-table lookup `name in handlers` / `handlers[name]`. */
  function ToolNamed(name: string): Option<ToolId>
  {
    match name
    case "dspmq" => Some(Dspmq)
    case "runmqsc" => Some(Runmqsc)
    case "list_queues" => Some(ListQueues)
    case "create_queue" => Some(CreateQueue)
    case "delete_queue" => Some(DeleteQueue)
    case "get_queue_depth" => Some(GetQueueDepth)
    case "clear_queue" => Some(ClearQueue)
    case "list_channels" => Some(ListChannels)
    case "start_channel" => Some(StartChannel)
    case "stop_channel" => Some(StopChannel)
    case "ping_channel" => Some(PingChannel)
    case "put_message" => Some(PutMessage)
    case "get_message" => Some(GetMessage)
    case "browse_messages" => Some(BrowseMessages)
    case "get_queue_stats" => Some(GetQueueStats)
    case "get_channel_status" => Some(GetChannelStatus)
    case "list_connections" => Some(ListConnections)
    case "refresh_security" => Some(RefreshSecurity)
    case "display_auth" => Some(DisplayAuth)
    case _ => None
  }

  /** The argument names each handler reads from `arguments`, in the order it passes them on. */
  function ArgNames(t: ToolId): seq<string>
  {
    match t
    case Dspmq => []
    case Runmqsc => ["qmgr_name", "mqsc_command"]
    case ListQueues | ListChannels | ListConnections | RefreshSecurity => ["qmgr_name"]
    case CreateQueue => ["qmgr_name", "queue_name", "queue_type"]
    case DeleteQueue | GetQueueDepth | ClearQueue | GetMessage | BrowseMessages | GetQueueStats =>
      ["qmgr_name", "queue_name"]
    case StartChannel | StopChannel | PingChannel | GetChannelStatus => ["qmgr_name", "channel_name"]
    case PutMessage => ["qmgr_name", "queue_name", "message"]
    case DisplayAuth => ["qmgr_name", "object_name"]
  }

  /** A string-typed property without description or default. */
  function StringProperty(name: string): Property
  {
    Property(name, "string", None, None)
  }

  function Tool(name: string, description: string, props: seq<string>, required: seq<string>): ToolDescriptor
  {
    ToolDescriptor(name, description,
                   InputSchema(seq(|props|, k requires 0 <= k < |props| => StringProperty(props[k])), Some(required)))
  }

  /** The descriptor `list_tools` advertises for each catalog tool. */
  function Descriptor(t: ToolId): ToolDescriptor
  {
    match t
    case Dspmq => Tool("dspmq", "List queue managers and status", [], [])
    case Runmqsc => Tool("runmqsc", "Run MQSC command", ["qmgr_name", "mqsc_command"], ["qmgr_name", "mqsc_command"])
    case ListQueues => Tool("list_queues", "List all queues", ["qmgr_name"], ["qmgr_name"])
    case CreateQueue =>
      ToolDescriptor("create_queue", "Create queue",
                     InputSchema([StringProperty("qmgr_name"), StringProperty("queue_name"), Property("queue_type", "string", None, Some("local"))],
                                 Some(["qmgr_name", "queue_name"])))
    case DeleteQueue => Tool("delete_queue", "Delete queue", ["qmgr_name", "queue_name"], ["qmgr_name", "queue_name"])
    case GetQueueDepth => Tool("get_queue_depth", "Get queue depth", ["qmgr_name", "queue_name"], ["qmgr_name", "queue_name"])
    case ClearQueue => Tool("clear_queue", "Clear queue messages", ["qmgr_name", "queue_name"], ["qmgr_name", "queue_name"])
    case ListChannels => Tool("list_channels", "List all channels", ["qmgr_name"], ["qmgr_name"])
    case StartChannel => Tool("start_channel", "Start channel", ["qmgr_name", "channel_name"], ["qmgr_name", "channel_name"])
    case StopChannel => Tool("stop_channel", "Stop channel", ["qmgr_name", "channel_name"], ["qmgr_name", "channel_name"])
    case PingChannel => Tool("ping_channel", "Ping channel", ["qmgr_name", "channel_name"], ["qmgr_name", "channel_name"])
    case PutMessage =>
      Tool("put_message", "Put message to queue", ["qmgr_name", "queue_name", "message"],
           ["qmgr_name", "queue_name", "message"])
    case GetMessage => Tool("get_message", "Get message from queue", ["qmgr_name", "queue_name"], ["qmgr_name", "queue_name"])
    case BrowseMessages =>
      Tool("browse_messages", "Browse queue messages", ["qmgr_name", "queue_name"], ["qmgr_name", "queue_name"])
    case GetQueueStats =>
      Tool("get_queue_stats", "Get queue statistics", ["qmgr_name", "queue_name"], ["qmgr_name", "queue_name"])
    case GetChannelStatus =>
      Tool("get_channel_status", "Get channel status", ["qmgr_name", "channel_name"], ["qmgr_name", "channel_name"])
    case ListConnections => Tool("list_connections", "List active connections", ["qmgr_name"], ["qmgr_name"])
    case RefreshSecurity => Tool("refresh_security", "Refresh security", ["qmgr_name"], ["qmgr_name"])
    case DisplayAuth =>
      Tool("display_auth", "Display authority records", ["qmgr_name", "object_name"], ["qmgr_name", "object_name"])
  }

  /** The order in which `list_tools` lists the catalog. */
  const CatalogOrder: seq<ToolId> :=
    [Dspmq, Runmqsc, ListQueues, CreateQueue, DeleteQueue, GetQueueDepth, ClearQueue,
     ListChannels, StartChannel, StopChannel, PingChannel, PutMessage, GetMessage, BrowseMessages,
     GetQueueStats, GetChannelStatus, ListConnections, RefreshSecurity, DisplayAuth]

  /** The nineteen descriptors `list_tools` returns, in the order it returns them. */
  function CatalogTools(): seq<ToolDescriptor>
  {
    seq(|CatalogOrder|, i requires 0 <= i < |CatalogOrder| => Descriptor(CatalogOrder[i]))
  }

  /** The two descriptors of the stdio and SSE servers built on the MCP `Server` class. */
  function CoreTools(): seq<ToolDescriptor>
  {
    [
      ToolDescriptor("dspmq", "List available queue managers and their status", InputSchema([], Some([]))),
      ToolDescriptor("runmqsc", "Run MQSC command against a queue manager",
                     InputSchema([Property("qmgr_name", "string", Some("Queue manager name"), None),
                                  Property("mqsc_command", "string", Some("MQSC command to execute"), None)],
                                 Some(["qmgr_name", "mqsc_command"])))
    ]
  }

  /** The two descriptors the minimal SSE server writes out by hand. */
  function MinimalTools(): seq<ToolDescriptor>
  {
    [
      ToolDescriptor("dspmq", "List queue managers", InputSchema([], None)),
      Tool("runmqsc", "Run MQSC command", ["qmgr_name", "mqsc_command"], ["qmgr_name", "mqsc_command"])
    ]
  }

  function PropertyNames(d: ToolDescriptor): seq<string>
  {
    seq(|d.inputSchema.properties|, k requires 0 <= k < |d.inputSchema.properties| => d.inputSchema.properties[k].name)
  }

  /** Every name in `names` is also a declared property. */
  predicate Declared(names: seq<string>, d: ToolDescriptor)
  {
    forall k :: 0 <= k < |names| ==> names[k] in PropertyNames(d)
  }

  /** The names of a list of descriptors, in order. */
  function Names(tools: seq<ToolDescriptor>): seq<string>
  {
    seq(|tools|, k requires 0 <= k < |tools| => tools[k].name)
  }

  /** The names advertised by `tools/list` are pairwise distinct. */
  predicate DistinctNames(tools: seq<ToolDescriptor>)
  {
    forall i, j :: 0 <= i < j < |tools| ==> tools[i].name != tools[j].name
  }

  /** Dispatch by name undoes naming: the handler table holds each tool under its own name only. */
  lemma NameLookupRoundTrip(t: ToolId, name: string)
    ensures ToolNamed(Name(t)) == Some(t)
    ensures ToolNamed(name) == Some(t) ==> Name(t) == name
  {
    NamedToolHasName(name);
  }

  /** Whatever tool the table finds under a name is the tool that carries that name. */
  lemma NamedToolHasName(name: string)
    ensures ToolNamed(name).Some? ==> Name(ToolNamed(name).value) == name
  {
    match name
    case "dspmq" =>
    case "runmqsc" =>
    case "list_queues" =>
    case "create_queue" =>
    case "delete_queue" =>
    case "get_queue_depth" =>
    case "clear_queue" =>
    case "list_channels" =>
    case "start_channel" =>
    case "stop_channel" =>
    case "ping_channel" =>
    case "put_message" =>
    case "get_message" =>
    case "browse_messages" =>
    case "get_queue_stats" =>
    case "get_channel_status" =>
    case "list_connections" =>
    case "refresh_security" =>
    case "display_auth" =>
    case _ =>
  }

  /** Each descriptor carries its tool's name and declares exactly the arguments its handler reads. */
  lemma DescriptorMatchesHandler(t: ToolId)
    ensures Descriptor(t).name == Name(t)
    ensures PropertyNames(Descriptor(t)) == ArgNames(t)
    ensures Declared(Descriptor(t).inputSchema.required.value, Descriptor(t))
  {
    var d := Descriptor(t);
    assert PropertyNames(d) == ArgNames(t);
    var req := d.inputSchema.required.value;
    forall k | 0 <= k < |req|
      ensures req[k] in PropertyNames(d)
    {
      assert req[k] == ArgNames(t)[k];
    }
  }

  /** Distinct tools have distinct names. */
  lemma NameInjective(s: ToolId, t: ToolId)
    ensures Name(s) == Name(t) ==> s == t
  {
    NameLookupRoundTrip(s, Name(t));
  }

  /** The listing order visits every catalog tool exactly once. */
  lemma CatalogOrderComplete(t: ToolId)
    ensures exists i :: 0 <= i < |CatalogOrder| && CatalogOrder[i] == t
    ensures forall i, j :: 0 <= i < j < |CatalogOrder| ==> CatalogOrder[i] != CatalogOrder[j]
  {
    match t
    case Dspmq => assert CatalogOrder[0] == t;
    case Runmqsc => assert CatalogOrder[1] == t;
    case ListQueues => assert CatalogOrder[2] == t;
    case CreateQueue => assert CatalogOrder[3] == t;
    case DeleteQueue => assert CatalogOrder[4] == t;
    case GetQueueDepth => assert CatalogOrder[5] == t;
    case ClearQueue => assert CatalogOrder[6] == t;
    case ListChannels => assert CatalogOrder[7] == t;
    case StartChannel => assert CatalogOrder[8] == t;
    case StopChannel => assert CatalogOrder[9] == t;
    case PingChannel => assert CatalogOrder[10] == t;
    case PutMessage => assert CatalogOrder[11] == t;
    case GetMessage => assert CatalogOrder[12] == t;
    case BrowseMessages => assert CatalogOrder[13] == t;
    case GetQueueStats => assert CatalogOrder[14] == t;
    case GetChannelStatus => assert CatalogOrder[15] == t;
    case ListConnections => assert CatalogOrder[16] == t;
    case RefreshSecurity => assert CatalogOrder[17] == t;
    case DisplayAuth => assert CatalogOrder[18] == t;
  }

  /**
   * The advertised catalog and the handler table agree: nineteen distinct
   * names, each advertised name has a handler, each handler is advertised,
   * and each handler reads exactly the properties its descriptor declares,
   * the required ones included.
   */
  lemma CatalogMatchesHandlers()
    ensures |CatalogTools()| == 19 && DistinctNames(CatalogTools())
    ensures forall i :: 0 <= i < 19 ==> ToolNamed(CatalogTools()[i].name) == Some(CatalogOrder[i])
    ensures forall t: ToolId :: Name(t) in Names(CatalogTools())
    ensures forall i :: 0 <= i < 19 ==>
              PropertyNames(CatalogTools()[i]) == ArgNames(CatalogOrder[i])
              && Declared(CatalogTools()[i].inputSchema.required.value, CatalogTools()[i])
  {
    CatalogEntriesMatch();
    CatalogNamesDistinct();
    forall t: ToolId
      ensures Name(t) in Names(CatalogTools())
    {
      CatalogAdvertises(t);
      var i :| 0 <= i < 19 && CatalogTools()[i].name == Name(t);
      assert Names(CatalogTools())[i] == Name(t);
    }
  }

  /** Each advertised entry is found by its name and declares the arguments its handler reads. */
  lemma CatalogEntriesMatch()
    ensures |CatalogTools()| == 19
    ensures forall i :: 0 <= i < 19 ==> ToolNamed(CatalogTools()[i].name) == Some(CatalogOrder[i])
    ensures forall i :: 0 <= i < 19 ==>
              PropertyNames(CatalogTools()[i]) == ArgNames(CatalogOrder[i])
              && Declared(CatalogTools()[i].inputSchema.required.value, CatalogTools()[i])
  {
    var tools := CatalogTools();
    forall i | 0 <= i < 19
      ensures ToolNamed(tools[i].name) == Some(CatalogOrder[i])
      ensures PropertyNames(tools[i]) == ArgNames(CatalogOrder[i])
      ensures Declared(tools[i].inputSchema.required.value, tools[i])
    {
      DescriptorMatchesHandler(CatalogOrder[i]);
      NameLookupRoundTrip(CatalogOrder[i], tools[i].name);
    }
  }

  /** No name is advertised twice. */
  lemma CatalogNamesDistinct()
    ensures DistinctNames(CatalogTools())
  {
    var tools := CatalogTools();
    forall i, j | 0 <= i < j < 19
      ensures tools[i].name != tools[j].name
    {
      DescriptorMatchesHandler(CatalogOrder[i]);
      DescriptorMatchesHandler(CatalogOrder[j]);
      CatalogOrderComplete(CatalogOrder[i]);
      NameInjective(CatalogOrder[i], CatalogOrder[j]);
    }
  }

  /** Every catalog tool is advertised under its own name. */
  lemma CatalogAdvertises(t: ToolId)
    ensures exists i :: 0 <= i < 19 && CatalogTools()[i].name == Name(t)
  {
    CatalogOrderComplete(t);
    var i :| 0 <= i < |CatalogOrder| && CatalogOrder[i] == t;
    DescriptorMatchesHandler(t);
    assert CatalogTools()[i] == Descriptor(t);
  }

  /** One item of a tool result: `TextContent(type="text", text=...)`. */
  datatype TextContent = TextContent(kind: string, text: string)
}
