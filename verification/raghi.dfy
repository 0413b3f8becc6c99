/**
 * The two servers that carry the nineteen-tool catalog: the SSE bridge and
 * the comprehensive stdio server. Both shape every admin exchange with
 * `mq_request` (which never raises) and then test `"error" in result`; any
 * other exception a handler meets escapes to its caller.
 *
 * They differ in four tools. The SSE bridge lists queues with MQSC, answers
 * `put_message` with a note and no request, tries the messaging API before
 * falling back on the queue depth in `get_message`, and reads the depth
 * before browsing. The stdio server uses the REST endpoints for all four.
 */
module Raghi {
  import opened Wrappers
  import opened Values
  import opened Admin
  import Text
  import Formatter
  import Mqsc
  import Registry

  datatype Variant = SseBridge | StdioServer

  /** A running server: which variant it is and the admin URL base it was configured with. */
  datatype Config = Config(variant: Variant, urlBase: string)

  /** The configuration each variant has when nothing is overridden. */
  function DefaultConfig(v: Variant): (c: Config)
    ensures c.variant == v
    ensures c.urlBase == if v == SseBridge then SseUrlBase else LocalUrlBase
  {
    Config(v, if v == SseBridge then SseUrlBase else LocalUrlBase)
  }

  /** `mq_request(method, endpoint, data)` against the configured base. */
  function Request(c: Config, oracle: Oracle, verb: HttpMethod, path: string, body: Payload): (r: (Json, AdminRequest))
    ensures r.1 == AdminRequest(verb, c.urlBase, path, body)
    ensures r.0 == Shape(oracle(r.1))
  {
    MqRequest(oracle, c.urlBase, None, verb, path, body)
  }

  /* ---------------------------------------------------------------------
   * the delimited listings
   * ------------------------------------------------------------------- */

  /**
   * What `dspmq`, `runmqsc` and the REST `list_queues` do with a shaped
   * result: an `"error"` member short-circuits to `"Error: <message>"`,
   * otherwise each entry of the `key` member (none when it is absent)
   * becomes one delimited line. A member that is not a list is iterated as
   * Python iterates it: a string by characters, a dict by keys, and
   * anything else raises `TypeError`.
   */
  function Listed(result: Json, key: string, line: Json -> Result<string, Exc>): (r: Result<string, Exc>)
    ensures r.Success? ==> result.JObject?
    ensures result.JObject? && HasKey(result.fields, "error") ==>
              r == Success("Error: " + Str(Lookup(result.fields, "error").value))
    ensures result.JObject? && !HasKey(result.fields, "error") && !HasKey(result.fields, key) ==>
              r == Success(Formatter.Delim)
    ensures result.JObject? && !HasKey(result.fields, "error") && HasKey(result.fields, key)
            && Iterate(Lookup(result.fields, key).value).Failure? ==>
              r.Failure? && r.error.TypeError?
    ensures result.JObject? && !HasKey(result.fields, "error") && HasKey(result.fields, key)
            && Iterate(Lookup(result.fields, key).value).Success? ==>
              (var xs := Iterate(Lookup(result.fields, key).value).value;
               (r.Success? <==> forall i :: 0 <= i < |xs| ==> line(xs[i]).Success?)
               && (r.Success? ==> exists lines: seq<string> ::
                                    && |lines| == |xs|
                                    && (forall i :: 0 <= i < |xs| ==> line(xs[i]) == Success(lines[i]))
                                    && r.value == Formatter.Listing(lines)))
  {
    match Contains("error", result)
    case Failure(e) => Failure(e)
    case Success(hasError) =>
      if hasError then
        var err :- Subscript(result, "error");
        Success("Error: " + Str(err))
      else
        match Get(result, key, JArray([]))
        case Failure(e) => Failure(e)
        case Success(entries) =>
          match Iterate(entries)
          case Failure(e) => Failure(e)
          case Success(items) =>
            match Formatter.MapLines(items, line)
            case Failure(e) => Failure(e)
            case Success(lines) =>
              assert |lines| == 0 ==> Formatter.Listing(lines) == Formatter.Delim;
              Success(Formatter.Listing(lines))
  }

  /** `dspmq()`: one GET of `qmgr/`, listed one queue manager per line. */
  function Dspmq(c: Config, oracle: Oracle): (r: Run<string>)
    ensures r.issued == [AdminRequest(GET, c.urlBase, "qmgr/", NoBody)]
    ensures oracle(r.issued[0]).Failure? ==> r.value == Success("Error: " + oracle(r.issued[0]).error)
    ensures oracle(r.issued[0]) == Success(None) ==> r.value == Success(Formatter.Delim)
    ensures r.value == Listed(Shape(oracle(r.issued[0])), "qmgr", Formatter.QmgrLine)
  {
    var (result, req) := Request(c, oracle, GET, "qmgr/", NoBody);
    assert Shape(oracle(req)) == result;
    Run(Listed(result, "qmgr", Formatter.QmgrLine), [req])
  }

  /** `runmqsc(qmgr, command)`: one POST to the queue manager's MQSC action, listed one response per line. */
  function Runmqsc(c: Config, oracle: Oracle, qmgr: Json, command: Json): (r: Run<string>)
    ensures r.issued == [AdminRequest(POST, c.urlBase, MqscPath(qmgr), JsonBody(RunCommandBody(command)))]
    ensures oracle(r.issued[0]).Failure? ==> r.value == Success("Error: " + oracle(r.issued[0]).error)
    ensures oracle(r.issued[0]) == Success(None) ==> r.value == Success(Formatter.Delim)
    ensures r.value == Listed(Shape(oracle(r.issued[0])), "commandResponse", Formatter.CommandLine)
  {
    var (result, req) := Request(c, oracle, POST, MqscPath(qmgr), JsonBody(RunCommandBody(command)));
    assert Shape(oracle(req)) == result;
    Run(Listed(result, "commandResponse", Formatter.CommandLine), [req])
  }

  /** A listing whose entries all render lines in order is those lines, delimited. */
  lemma ListedLines(result: Json, key: string, line: Json -> Result<string, Exc>, xs: seq<Json>, expected: seq<string>)
    requires result.JObject? && !HasKey(result.fields, "error")
    requires Lookup(result.fields, key) == Some(JArray(xs))
    requires |expected| == |xs|
    requires forall i :: 0 <= i < |xs| ==> line(xs[i]) == Success(expected[i])
    ensures Listed(result, key, line) == Success(Formatter.Listing(expected))
  {
    var r := Listed(result, key, line);
    assert r.Success?;
    var lines: seq<string> :| |lines| == |xs| && (forall i :: 0 <= i < |xs| ==> line(xs[i]) == Success(lines[i]))
                              && r.value == Formatter.Listing(lines);
    assert lines == expected;
  }

  /**
   * The `dspmq` listing of a well-formed answer: the leading delimiter and
   * one `name = N, running = S` line per queue manager, in array order.
   */
  lemma DspmqListsQueueManagers(c: Config, oracle: Oracle, xs: seq<Json>)
    requires oracle(AdminRequest(GET, c.urlBase, "qmgr/", NoBody)) == Success(Some(Obj([("qmgr", JArray(xs))])))
    requires forall i :: 0 <= i < |xs| ==> xs[i].JObject? && HasKey(xs[i].fields, "name") && HasKey(xs[i].fields, "state")
    ensures Dspmq(c, oracle).value
            == Success(Formatter.Listing(seq(|xs|, i requires 0 <= i < |xs| => Formatter.QmgrText(xs[i]))))
  {
    var result := Obj([("qmgr", JArray(xs))]);
    assert result.fields[0].0 == "qmgr";
    assert Lookup(result.fields, "qmgr") == Some(JArray(xs));
    var expected := seq(|xs|, i requires 0 <= i < |xs| => Formatter.QmgrText(xs[i]));
    ListedLines(result, "qmgr", Formatter.QmgrLine, xs, expected);
  }

  /** An answer without a `qmgr` member, or with an empty one, lists nothing. */
  lemma DspmqEmpty(c: Config, oracle: Oracle, fields: seq<(string, Json)>)
    requires oracle(AdminRequest(GET, c.urlBase, "qmgr/", NoBody)) == Success(Some(JObject(fields)))
    requires !HasKey(fields, "error")
    requires !HasKey(fields, "qmgr") || Lookup(fields, "qmgr") == Some(JArray([]))
    ensures Dspmq(c, oracle).value == Success("\n---\n")
  {
    if HasKey(fields, "qmgr") {
      ListedLines(JObject(fields), "qmgr", Formatter.QmgrLine, [], []);
      assert Formatter.Listing([]) == Formatter.Delim;
    }
  }

  /**
   * The `runmqsc` listing of a well-formed reply: the leading delimiter and
   * the first text line of each response entry, in order.
   */
  lemma RunmqscListsResponses(c: Config, oracle: Oracle, qmgr: Json, command: Json, xs: seq<Json>)
    requires oracle(AdminRequest(POST, c.urlBase, MqscPath(qmgr), JsonBody(RunCommandBody(command))))
             == Success(Some(Obj([("commandResponse", JArray(xs))])))
    requires forall i :: 0 <= i < |xs| ==> Formatter.TextEntry(xs[i])
    ensures Runmqsc(c, oracle, qmgr, command).value
            == Success(Formatter.Listing(seq(|xs|, i requires 0 <= i < |xs| && Formatter.TextEntry(xs[i]) =>
                                                   Lookup(xs[i].fields, "text").value.items[0].s)))
  {
    var result := Obj([("commandResponse", JArray(xs))]);
    assert result.fields[0].0 == "commandResponse";
    assert Lookup(result.fields, "commandResponse") == Some(JArray(xs));
    var expected := seq(|xs|, i requires 0 <= i < |xs| && Formatter.TextEntry(xs[i]) =>
                                Lookup(xs[i].fields, "text").value.items[0].s);
    ListedLines(result, "commandResponse", Formatter.CommandLine, xs, expected);
  }

  /**
   * The REST `list_queues` listing of a well-formed answer: one line per
   * queue in order, with `N/A` for a queue without a `type`.
   */
  lemma ListQueuesListsQueues(c: Config, oracle: Oracle, qmgr: Json, xs: seq<Json>)
    requires oracle(AdminRequest(GET, c.urlBase, "qmgr/" + Str(qmgr) + "/queue", NoBody))
             == Success(Some(Obj([("queue", JArray(xs))])))
    requires forall i :: 0 <= i < |xs| ==> xs[i].JObject? && HasKey(xs[i].fields, "name")
    ensures RestListQueues(c, oracle, qmgr).value
            == Success(Formatter.Listing(seq(|xs|, i requires 0 <= i < |xs| => Formatter.QueueText(xs[i]))))
  {
    var result := Obj([("queue", JArray(xs))]);
    assert result.fields[0].0 == "queue";
    assert Lookup(result.fields, "queue") == Some(JArray(xs));
    var expected := seq(|xs|, i requires 0 <= i < |xs| => Formatter.QueueText(xs[i]));
    ListedLines(result, "queue", Formatter.QueueLine, xs, expected);
  }

  /* ---------------------------------------------------------------------
   * the catalog tools that delegate to runmqsc
   * ------------------------------------------------------------------- */

  /**
   * The MQSC operation a catalog tool runs, given its arguments in the order
   * `Registry.ArgNames` lists them; `None` for the tools that do something
   * else. Names are rendered with `str()` and not escaped, and `queue_type`
   * is not used.
   */
  function CatalogOp(v: Variant, t: Registry.ToolId, a: seq<Json>): (r: Option<Mqsc.MqscOp>)
    requires |a| == |Registry.ArgNames(t)|
    ensures r.None? <==> t.Dspmq? || t.Runmqsc? || t.PutMessage? || t.GetMessage? || t.BrowseMessages?
                         || (t.ListQueues? && v.StdioServer?)
    ensures r.Some? && Mqsc.ObjectName(r.value).None? <==>
              t.ListChannels? || t.ListConnections? || t.RefreshSecurity? || (t.ListQueues? && v.SseBridge?)
    ensures r.Some? && Mqsc.ObjectName(r.value).Some? ==> |a| > 1 && Mqsc.ObjectName(r.value).value == Str(a[1])
  {
    match t
    case ListQueues => if v == SseBridge then Some(Mqsc.ListQueues) else None
    case CreateQueue => Some(Mqsc.CreateQueue(Str(a[1])))
    case DeleteQueue => Some(Mqsc.DeleteQueue(Str(a[1])))
    case GetQueueDepth => Some(Mqsc.QueueDepth(Str(a[1])))
    case ClearQueue => Some(Mqsc.ClearQueue(Str(a[1])))
    case ListChannels => Some(Mqsc.ListChannels)
    case StartChannel => Some(Mqsc.StartChannel(Str(a[1])))
    case StopChannel => Some(Mqsc.StopChannel(Str(a[1])))
    case PingChannel => Some(Mqsc.PingChannel(Str(a[1])))
    case GetQueueStats => Some(Mqsc.QueueStats(Str(a[1])))
    case GetChannelStatus => Some(Mqsc.ChannelStatus(Str(a[1])))
    case ListConnections => Some(Mqsc.ListConnections)
    case RefreshSecurity => Some(Mqsc.RefreshSecurity)
    case DisplayAuth => Some(Mqsc.DisplayAuth(Str(a[1])))
    case _ => None
  }

  /**
   * The operation a catalog tool runs reads its second argument only: the
   * queue manager goes to the request path, and `create_queue` does not
   * look at `queue_type` at all.
   */
  lemma CatalogOpReadsOnlyTheName(v: Variant, t: Registry.ToolId, a: seq<Json>, b: seq<Json>)
    requires |a| == |Registry.ArgNames(t)| && |b| == |a|
    requires |a| > 1 ==> a[1] == b[1]
    ensures CatalogOp(v, t, a) == CatalogOp(v, t, b)
  {
  }

  /** `create_queue` defines the same local queue whatever `queue_type` says. */
  lemma CreateQueueIgnoresType(v: Variant, a: seq<Json>, k: Json)
    requires |a| == 3
    ensures CatalogOp(v, Registry.CreateQueue, a) == CatalogOp(v, Registry.CreateQueue, a[2 := k])
    ensures CatalogOp(v, Registry.CreateQueue, a) == Some(Mqsc.CreateQueue(Str(a[1])))
  {
    CatalogOpReadsOnlyTheName(v, Registry.CreateQueue, a, a[2 := k]);
  }

  /** A catalog tool: `runmqsc` with the operation's command text. */
  function Catalog(c: Config, oracle: Oracle, qmgr: Json, op: Mqsc.MqscOp): (r: Run<string>)
    ensures r.issued == [AdminRequest(POST, c.urlBase, MqscPath(qmgr), JsonBody(RunCommandBody(JString(Mqsc.Command(op)))))]
    ensures CommandOf(r.issued[0].body) == Some(JString(Mqsc.Command(op)))
    ensures Mqsc.Parse(CommandOf(r.issued[0].body).value.s) == Some(op)
    ensures r == Runmqsc(c, oracle, qmgr, JString(Mqsc.Command(op)))
    ensures oracle(r.issued[0]).Failure? ==> r.value == Success("Error: " + oracle(r.issued[0]).error)
    ensures r.value == Listed(Shape(oracle(r.issued[0])), "commandResponse", Formatter.CommandLine)
  {
    RunCommandBodyRoundTrip(JString(Mqsc.Command(op)));
    Mqsc.ParseRoundTrip(op);
    Runmqsc(c, oracle, qmgr, JString(Mqsc.Command(op)))
  }

  /* ---------------------------------------------------------------------
   * REST tools of the stdio server
   * ------------------------------------------------------------------- */

  /** `list_queues(qmgr)` over REST: one GET, one `Queue: ..., Type: ...` line per queue. */
  function RestListQueues(c: Config, oracle: Oracle, qmgr: Json): (r: Run<string>)
    ensures r.issued == [AdminRequest(GET, c.urlBase, "qmgr/" + Str(qmgr) + "/queue", NoBody)]
    ensures oracle(r.issued[0]).Failure? ==> r.value == Success("Error: " + oracle(r.issued[0]).error)
    ensures r.value == Listed(Shape(oracle(r.issued[0])), "queue", Formatter.QueueLine)
  {
    var (result, req) := Request(c, oracle, GET, "qmgr/" + Str(qmgr) + "/queue", NoBody);
    assert Shape(oracle(req)) == result;
    Run(Listed(result, "queue", Formatter.QueueLine), [req])
  }

  function MessagePath(qmgr: Json, queue: Json): string
  {
    "qmgr/" + Str(qmgr) + "/queue/" + Str(queue) + "/message"
  }

  const PutResultPrefix: string := "Message put result: "
  const GetResultPrefix: string := "Message get result: "
  const BrowseResultPrefix: string := "Browse result: "

  function PutMessageBody(message: Json): Json
  {
    Obj([("type", JString("message")), ("message", Obj([("applicationData", message)]))])
  }

  /**
   * `put_message`, `get_message` and `browse_messages` of the stdio server:
   * one request on the queue's message path, whose shaped result is shown
   * after a fixed prefix. Nothing is rendered as `"Error: ..."` and nothing
   * raises.
   */
  function RestMessage(c: Config, oracle: Oracle, verb: HttpMethod, qmgr: Json, queue: Json, body: Payload,
                       prefix: string): (r: Run<string>)
    ensures r.issued == [AdminRequest(verb, c.urlBase, MessagePath(qmgr, queue), body)]
    ensures r.value.Success? && |r.value.value| >= |prefix| && r.value.value[..|prefix|] == prefix
    ensures oracle(r.issued[0]).Failure? ==>
              r.value.value == prefix + "{'error': " + ReprStr(oracle(r.issued[0]).error) + "}"
  {
    var (result, req) := Request(c, oracle, verb, MessagePath(qmgr, queue), body);
    var text := prefix + Str(result);
    assert text[..|prefix|] == prefix;
    if oracle(req).Failure? then
      ShapedFailureText(oracle(req).error);
      Regroup(prefix, "{'error': ", ReprStr(oracle(req).error), "}");
      Run(Success(text), [req])
    else
      Run(Success(text), [req])
  }

  /**
   * Text shown after a prefix, regrouped. This is a proof step only: it
   * spares the solver the search for the grouping; it models nothing of the
   * source.
   */
  lemma Regroup(prefix: string, a: string, b: string, c: string)
    ensures prefix + (a + b + c) == prefix + a + b + c
  {
  }

  /* ---------------------------------------------------------------------
   * message tools of the SSE bridge
   * ------------------------------------------------------------------- */

  /** `put_message` of the SSE bridge: guidance only, no request. */
  function PutNote(qmgr: Json, queue: Json, message: Json): string
  {
    "Note: Use amqsput command to put messages. Message '" + Str(message) + "' would be put to "
    + Str(queue) + " on " + Str(qmgr)
  }

  const NoMessagesNote: string := "\n\nNo messages to retrieve."

  function LoopNote(depth: nat, qmgr: Json, queue: Json): string
  {
    "\n\nTo get all " + Text.NatToDecimal(depth) + " messages, use: podman exec ibm-mq-server bash -c 'for i in {1.."
    + Text.NatToDecimal(depth) + "}; do /opt/mqm/samp/bin/amqsget " + Str(queue) + " " + Str(qmgr) + "; done'"
  }

  function AmqsgetNote(qmgr: Json, queue: Json): string
  {
    "\n\nUse: podman exec ibm-mq-server /opt/mqm/samp/bin/amqsget " + Str(queue) + " " + Str(qmgr)
  }

  /**
   * The guidance `get_message` appends to the depth report `d`, chosen by
   * the first `CURDEPTH(<n>)` in it.
   */
  function DepthGuidance(d: string, qmgr: Json, queue: Json): (r: string)
    ensures |r| > |d| && r[..|d|] == d
  {
    var r := match Text.CurDepth(d)
      case Some(n) => if n == 0 then d + NoMessagesNote else d + LoopNote(n, qmgr, queue)
      case None => d + AmqsgetNote(qmgr, queue);
    assert r[..|d|] == d;
    r
  }

  /** A depth report whose first depth is `n` gets the guidance for `n`. */
  lemma GuidanceForDepth(pre: string, n: nat, rest: string, qmgr: Json, queue: Json)
    requires Text.CurDepth(pre).None?
    ensures var d := pre + (Text.DepthTag + Text.NatToDecimal(n) + ")" + rest);
            DepthGuidance(d, qmgr, queue) == d + (if n == 0 then NoMessagesNote else LoopNote(n, qmgr, queue))
  {
    Text.DepthAfter(pre, n, rest);
  }

  /** A depth report without any `CURDEPTH(<n>)` gets the generic `amqsget` guidance. */
  lemma GuidanceWithoutDepth(d: string, qmgr: Json, queue: Json)
    requires forall p, m :: 0 <= p <= |d| ==> !Text.RegexMatchAt(d, p, m)
    ensures DepthGuidance(d, qmgr, queue) == d + AmqsgetNote(qmgr, queue)
  {
  }

  /**
   * `get_message` of the SSE bridge. It first GETs the message path on the
   * messaging API, whose base is the admin base with `/v2/admin/` replaced
   * by `/v3/messaging/` (the admin base itself if that leaves nothing). A
   * result without an `"error"` member is returned as it is; otherwise,
   * including when the test itself raises, the queue depth is read with
   * MQSC and guidance follows the depth report.
   */
  function SseGetMessage(c: Config, oracle: Oracle, qmgr: Json, queue: Json): (r: Run<string>)
    ensures |r.issued| >= 1
    ensures r.issued[0].verb == GET && r.issued[0].path == MessagePath(qmgr, queue) && r.issued[0].body == NoBody
    ensures |MessagingBase(c.urlBase)| > 0 ==> r.issued[0].base == MessagingBase(c.urlBase)
    ensures Contains("error", Shape(oracle(r.issued[0]))) == Success(false) ==>
              r == Run(Success("Message retrieved via REST API: " + Str(Shape(oracle(r.issued[0])))), r.issued[..1])
    ensures Contains("error", Shape(oracle(r.issued[0]))) != Success(false) ==>
              (var depth := Runmqsc(c, oracle, qmgr, JString(Mqsc.Command(Mqsc.QueueDepth(Str(queue)))));
               && r.issued == r.issued[..1] + depth.issued
               && (depth.value.Failure? ==> r.value == depth.value)
               && (depth.value.Success? ==> r.value == Success(DepthGuidance(depth.value.value, qmgr, queue))))
  {
    var (result, req) := MqRequest(oracle, c.urlBase, Some(MessagingBase(c.urlBase)), GET, MessagePath(qmgr, queue), NoBody);
    if Contains("error", result) == Success(false) then
      Run(Success("Message retrieved via REST API: " + Str(result)), [req])
    else
      var depth := Runmqsc(c, oracle, qmgr, JString(Mqsc.Command(Mqsc.QueueDepth(Str(queue)))));
      match depth.value
      case Failure(e) => Run(Failure(e), [req] + depth.issued)
      case Success(d) => Run(Success(DepthGuidance(d, qmgr, queue)), [req] + depth.issued)
  }

  /** An MQSC reply with a single response entry whose first text line is `line`. */
  function SingleReply(line: string): Json
  {
    Obj([("commandResponse", JArray([Obj([("text", JArray([JString(line)]))])]))])
  }

  /** `runmqsc` lists a single-entry reply as that entry's text between two delimiters. */
  lemma RunmqscSingleReply(c: Config, oracle: Oracle, qmgr: Json, command: Json, line: string)
    requires oracle(AdminRequest(POST, c.urlBase, MqscPath(qmgr), JsonBody(RunCommandBody(command))))
             == Success(Some(SingleReply(line)))
    ensures Runmqsc(c, oracle, qmgr, command).value == Success(Formatter.Delim + (line + Formatter.Delim))
  {
    var entry := Obj([("text", JArray([JString(line)]))]);
    var reply := SingleReply(line);
    assert reply.fields[0].0 == "commandResponse";
    assert Lookup(reply.fields, "commandResponse") == Some(JArray([entry]));
    assert entry.fields[0].0 == "text";
    assert Lookup(entry.fields, "text") == Some(JArray([JString(line)]));
    assert Formatter.CommandLine(entry) == Success(line);
    ListedLines(reply, "commandResponse", Formatter.CommandLine, [entry], [line]);
    assert [line][1..] == [];
    assert Formatter.Entries([line]) == line + Formatter.Delim + "";
    assert Formatter.Listing([line]) == Formatter.Delim + (line + Formatter.Delim);
  }

  /**
   * The fallback of `get_message` end to end: when the messaging API fails
   * and the depth command reports `CURDEPTH(<n>)`, the reply is the depth
   * listing followed by the guidance for `n`, after two requests.
   */
  lemma GetMessageFallsBackOnDepth(c: Config, oracle: Oracle, qmgr: Json, queue: Json, n: nat)
    requires forall b :: oracle(AdminRequest(GET, b, MessagePath(qmgr, queue), NoBody)).Failure?
    requires oracle(AdminRequest(POST, c.urlBase, MqscPath(qmgr),
                                 JsonBody(RunCommandBody(JString(Mqsc.Command(Mqsc.QueueDepth(Str(queue))))))))
             == Success(Some(SingleReply(Text.DepthTag + Text.NatToDecimal(n) + ")")))
    ensures var d := Formatter.Delim + (Text.DepthTag + Text.NatToDecimal(n) + ")" + Formatter.Delim);
            var r := SseGetMessage(c, oracle, qmgr, queue);
            |r.issued| == 2 && r.value == Success(d + (if n == 0 then NoMessagesNote else LoopNote(n, qmgr, queue)))
  {
    var r := SseGetMessage(c, oracle, qmgr, queue);
    var line := Text.DepthTag + Text.NatToDecimal(n) + ")";
    var command := JString(Mqsc.Command(Mqsc.QueueDepth(Str(queue))));
    var shaped := Shape(oracle(r.issued[0]));
    assert Contains("error", shaped) == Success(true);
    RunmqscSingleReply(c, oracle, qmgr, command, line);
    assert forall p, m :: 0 <= p <= |Formatter.Delim| ==> !Text.RegexMatchAt(Formatter.Delim, p, m);
    GuidanceForDepth(Formatter.Delim, n, Formatter.Delim, qmgr, queue);
  }

  /** The note `browse_messages` gives when the messaging API cannot show the messages. */
  function BrowseNote(qmgr: Json, queue: Json): string
  {
    "\n\nNote: To view message content, use: podman exec ibm-mq-server /opt/mqm/samp/bin/amqsbcg "
      + Str(queue) + " " + Str(qmgr)
  }

  /**
   * `browse_messages` of the SSE bridge: the depth report first, then a GET
   * of the message path under `messaging/` on the admin base. A result
   * without an `"error"` member is shown after the report; otherwise the
   * `amqsbcg` note follows it.
   */
  function SseBrowseMessages(c: Config, oracle: Oracle, qmgr: Json, queue: Json): (r: Run<string>)
    ensures var depth := Runmqsc(c, oracle, qmgr, JString(Mqsc.Command(Mqsc.QueueDepth(Str(queue)))));
            && |r.issued| >= 1 && r.issued[..1] == depth.issued
            && (depth.value.Failure? ==> r == depth)
            && (depth.value.Success? ==>
                  (var req := AdminRequest(GET, c.urlBase, "messaging/" + MessagePath(qmgr, queue), NoBody);
                   var d := depth.value.value;
                   && r.issued == depth.issued + [req]
                   && (Contains("error", Shape(oracle(req))) == Success(false) ==>
                         r.value == Success("Queue depth info:\n" + d + "\n\nMessage content:\n" + Str(Shape(oracle(req)))))
                   && (Contains("error", Shape(oracle(req))) != Success(false) ==>
                         r.value == Success(d + BrowseNote(qmgr, queue)))))
  {
    var depth := Runmqsc(c, oracle, qmgr, JString(Mqsc.Command(Mqsc.QueueDepth(Str(queue)))));
    match depth.value
    case Failure(_) => depth
    case Success(d) =>
      var (result, req) := Request(c, oracle, GET, "messaging/" + MessagePath(qmgr, queue), NoBody);
      if Contains("error", result) == Success(false) then
        Run(Success("Queue depth info:\n" + d + "\n\nMessage content:\n" + Str(result)), depth.issued + [req])
      else
        Run(Success(d + BrowseNote(qmgr, queue)), depth.issued + [req])
  }

  /**
   * The fallback of `browse_messages` end to end: when the depth command
   * answers with one line and the messaging call fails, the reply is that
   * listing followed by the `amqsbcg` note, after exactly two requests.
   */
  lemma BrowseFallsBackOnNote(c: Config, oracle: Oracle, qmgr: Json, queue: Json, line: string)
    requires oracle(AdminRequest(POST, c.urlBase, MqscPath(qmgr),
                                 JsonBody(RunCommandBody(JString(Mqsc.Command(Mqsc.QueueDepth(Str(queue))))))))
             == Success(Some(SingleReply(line)))
    requires oracle(AdminRequest(GET, c.urlBase, "messaging/" + MessagePath(qmgr, queue), NoBody)).Failure?
    ensures var r := SseBrowseMessages(c, oracle, qmgr, queue);
            |r.issued| == 2 && r.value == Success(Formatter.Delim + (line + Formatter.Delim) + BrowseNote(qmgr, queue))
  {
    var req := AdminRequest(GET, c.urlBase, "messaging/" + MessagePath(qmgr, queue), NoBody);
    assert Contains("error", Shape(oracle(req))) == Success(true);
    RunmqscSingleReply(c, oracle, qmgr, JString(Mqsc.Command(Mqsc.QueueDepth(Str(queue)))), line);
  }

  /* ---------------------------------------------------------------------
   * dispatch
   * ------------------------------------------------------------------- */

  /** The default `call_tool` passes to `arguments.get` for an argument. */
  function ArgDefault(name: string): Json
  {
    if name == "queue_type" then JString("local") else JNull
  }

  /**
   * The argument values a handler is called with, `arguments.get(name)` for
   * each name in order. A missing argument becomes `None`; an `arguments`
   * that is not a dict raises at the first name.
   */
  function ArgValues(args: Json, names: seq<string>): (r: Result<seq<Json>, Exc>)
    ensures |names| == 0 ==> r == Success([])
    ensures |names| > 0 ==> (r.Success? <==> args.JObject?)
    ensures r.Success? ==> |r.value| == |names|
                           && forall i :: 0 <= i < |names| ==>
                                r.value[i] == Lookup(args.fields, names[i]).GetOr(ArgDefault(names[i]))
    decreases |names|
  {
    if |names| == 0 then Success([])
    else
      var first :- Get(args, names[0], ArgDefault(names[0]));
      var rest :- ArgValues(args, names[1..]);
      assert forall i :: 1 <= i < |names| ==> names[i] == names[1..][i - 1];
      Success([first] + rest)
  }

  /**
   * The handler of tool `t`, called with its argument values: the MQSC
   * template of a catalog tool, and otherwise the tool's own handler, which
   * for the four message and listing tools depends on the variant.
   */
  function Invoke(c: Config, oracle: Oracle, t: Registry.ToolId, a: seq<Json>): (r: Run<string>)
    requires |a| == |Registry.ArgNames(t)|
    ensures CatalogOp(c.variant, t, a).Some? ==> r == Catalog(c, oracle, a[0], CatalogOp(c.variant, t, a).value)
    ensures t.Dspmq? ==> r == Dspmq(c, oracle)
    ensures t.Runmqsc? ==> r == Runmqsc(c, oracle, a[0], a[1])
    ensures t.ListQueues? && c.variant == StdioServer ==> r == RestListQueues(c, oracle, a[0])
    ensures t.PutMessage? && c.variant == SseBridge ==> r == Run(Success(PutNote(a[0], a[1], a[2])), [])
    ensures t.PutMessage? && c.variant == StdioServer ==>
              r == RestMessage(c, oracle, POST, a[0], a[1], JsonBody(PutMessageBody(a[2])), PutResultPrefix)
    ensures t.GetMessage? && c.variant == SseBridge ==> r == SseGetMessage(c, oracle, a[0], a[1])
    ensures t.GetMessage? && c.variant == StdioServer ==> r == RestMessage(c, oracle, DELETE, a[0], a[1], NoBody, GetResultPrefix)
    ensures t.BrowseMessages? && c.variant == SseBridge ==> r == SseBrowseMessages(c, oracle, a[0], a[1])
    ensures t.BrowseMessages? && c.variant == StdioServer ==>
              r == RestMessage(c, oracle, GET, a[0], a[1], NoBody, BrowseResultPrefix)
  {
    match CatalogOp(c.variant, t, a)
    case Some(op) => Catalog(c, oracle, a[0], op)
    case None =>
      match t
      case Dspmq => Dspmq(c, oracle)
      case Runmqsc => Runmqsc(c, oracle, a[0], a[1])
      case ListQueues => RestListQueues(c, oracle, a[0])
      case PutMessage =>
        if c.variant == SseBridge then Run(Success(PutNote(a[0], a[1], a[2])), [])
        else RestMessage(c, oracle, POST, a[0], a[1], JsonBody(PutMessageBody(a[2])), PutResultPrefix)
      case GetMessage =>
        if c.variant == SseBridge then SseGetMessage(c, oracle, a[0], a[1])
        else RestMessage(c, oracle, DELETE, a[0], a[1], NoBody, GetResultPrefix)
      case BrowseMessages =>
        if c.variant == SseBridge then SseBrowseMessages(c, oracle, a[0], a[1])
        else RestMessage(c, oracle, GET, a[0], a[1], NoBody, BrowseResultPrefix)
      case _ => assert false; Run(Success(""), [])
  }

  /** The handler-table lookup: only a string can equal one of the table's keys. */
  function ToolFor(name: Json): Option<Registry.ToolId>
  {
    if name.JString? then Registry.ToolNamed(name.s) else None
  }

  /**
   * `call_tool(name, arguments)`: an unhashable name raises `TypeError`, an
   * unknown one `ValueError("Unknown tool: <name>")`, both before any
   * request; a known one runs its handler on the looked-up arguments and
   * wraps the text in a single text content.
   */
  function CallTool(c: Config, oracle: Oracle, name: Json, args: Json): (r: Run<seq<Registry.TextContent>>)
    ensures (name.JArray? || name.JObject?) ==> r.value.Failure? && r.value.error.TypeError? && r.issued == []
    ensures !(name.JArray? || name.JObject?) && ToolFor(name).None? ==>
              r == Run(Failure(ValueError("Unknown tool: " + Str(name))), [])
    ensures ToolFor(name).Some? ==>
              (var t := ToolFor(name).value;
               var a := ArgValues(args, Registry.ArgNames(t));
               && (a.Failure? ==> r == Run(Failure(a.error), []))
               && (a.Success? ==>
                     (var out := Invoke(c, oracle, t, a.value);
                      && r.issued == out.issued
                      && (r.value.Success? <==> out.value.Success?)
                      && (out.value.Failure? ==> r.value.error == out.value.error)
                      && (out.value.Success? ==> r.value.value == [Registry.TextContent("text", out.value.value)]))))
  {
    match CheckHashable(name)
    case Failure(e) => Run(Failure(e), [])
    case Success(_) =>
      match ToolFor(name)
      case None => Run(Failure(ValueError("Unknown tool: " + Str(name))), [])
      case Some(t) =>
        match ArgValues(args, Registry.ArgNames(t))
        case Failure(e) => Run(Failure(e), [])
        case Success(a) =>
          var out := Invoke(c, oracle, t, a);
          match out.value
          case Success(text) => Run(Success([Registry.TextContent("text", text)]), out.issued)
          case Failure(e) => Run(Failure(e), out.issued)
  }

  /* ---------------------------------------------------------------------
   * properties of the dispatcher
   * ------------------------------------------------------------------- */

  /**
   * Every catalog tool called with a dict of arguments issues exactly one
   * POST, to the MQSC action of the named queue manager, whose command
   * parses back to the tool's operation.
   */
  lemma CatalogToolIssuesItsCommand(c: Config, oracle: Oracle, t: Registry.ToolId, args: Json)
    requires args.JObject?
    requires CatalogOp(c.variant, t, ArgValues(args, Registry.ArgNames(t)).value).Some?
    ensures var a := ArgValues(args, Registry.ArgNames(t)).value;
            var op := CatalogOp(c.variant, t, a).value;
            var r := CallTool(c, oracle, JString(Registry.Name(t)), args);
            && |r.issued| == 1
            && r.issued[0].verb == POST
            && r.issued[0].path == "action/qmgr/" + Str(Lookup(args.fields, "qmgr_name").GetOr(JNull)) + "/mqsc"
            && CommandOf(r.issued[0].body) == Some(JString(Mqsc.Command(op)))
            && Mqsc.Parse(Mqsc.Command(op)) == Some(op)
  {
    Registry.NameLookupRoundTrip(t, Registry.Name(t));
    assert Registry.ArgNames(t)[0] == "qmgr_name";
  }

  /** The handler table finds every catalog tool under its own name. */
  lemma ToolForName(t: Registry.ToolId)
    ensures ToolFor(JString(Registry.Name(t))) == Some(t)
  {
    Registry.NameLookupRoundTrip(t, Registry.Name(t));
  }

  /** The argument values of a call naming a queue manager and a queue. */
  lemma QueueArgs(qmgr: Json, queue: Json)
    ensures ArgValues(Obj([("qmgr_name", qmgr), ("queue_name", queue)]), ["qmgr_name", "queue_name"])
            == Success([qmgr, queue])
  {
    var args := Obj([("qmgr_name", qmgr), ("queue_name", queue)]);
    var fields := args.fields;
    assert fields[1..] == [("queue_name", queue)];
    assert Lookup(fields[1..], "qmgr_name") == None;
    assert Lookup(fields, "qmgr_name") == Some(qmgr);
    assert Lookup(fields, "queue_name") == Some(queue);
    var r := ArgValues(args, ["qmgr_name", "queue_name"]);
    assert r.Success? && |r.value| == 2;
    assert r.value[0] == qmgr && r.value[1] == queue;
    assert r.value == [qmgr, queue];
    assert r == Success(r.value);
  }

  /** The argument values of a call naming a queue manager, a queue and one more argument. */
  lemma QueueArgsAnd(qmgr: Json, queue: Json, name: string, value: Json)
    requires name != "qmgr_name" && name != "queue_name"
    ensures ArgValues(Obj([("qmgr_name", qmgr), ("queue_name", queue), (name, value)]), ["qmgr_name", "queue_name", name])
            == Success([qmgr, queue, value])
  {
    var args := Obj([("qmgr_name", qmgr), ("queue_name", queue), (name, value)]);
    var fields := args.fields;
    assert fields[1..][1..] == [(name, value)];
    assert Lookup(fields[1..][1..], "queue_name") == None;
    assert Lookup(fields[1..][1..], "qmgr_name") == None;
    assert Lookup(fields[1..], "qmgr_name") == None;
    assert Lookup(fields, "qmgr_name") == Some(qmgr);
    assert Lookup(fields, "queue_name") == Some(queue);
    assert Lookup(fields, name) == Some(value);
    var r := ArgValues(args, ["qmgr_name", "queue_name", name]);
    assert r.Success? && |r.value| == 3;
    assert r.value[0] == qmgr && r.value[1] == queue && r.value[2] == value;
    assert r.value == [qmgr, queue, value];
    assert r == Success(r.value);
  }

  /** `create_queue` on `QM1` for `Q1` sends `DEFINE QLOCAL(Q1)` to `action/qmgr/QM1/mqsc`, whatever the type. */
  lemma CreateQueueExample(c: Config, oracle: Oracle, kind: Json)
    ensures var args := Obj([("qmgr_name", JString("QM1")), ("queue_name", JString("Q1")), ("queue_type", kind)]);
            var r := CallTool(c, oracle, JString("create_queue"), args);
            r.issued == [AdminRequest(POST, c.urlBase, "action/qmgr/QM1/mqsc",
                                      JsonBody(RunCommandBody(JString("DEFINE QLOCAL(Q1)"))))]
  {
    var args := Obj([("qmgr_name", JString("QM1")), ("queue_name", JString("Q1")), ("queue_type", kind)]);
    var t := Registry.CreateQueue;
    ToolForName(t);
    QueueArgsAnd(JString("QM1"), JString("Q1"), "queue_type", kind);
    assert Registry.ArgNames(t) == ["qmgr_name", "queue_name", "queue_type"];
    var a := ArgValues(args, Registry.ArgNames(t)).value;
    assert CatalogOp(c.variant, t, a) == Some(Mqsc.CreateQueue("Q1"));
    assert Mqsc.Command(Mqsc.CreateQueue("Q1")) == "DEFINE QLOCAL(Q1)";
    assert MqscPath(JString("QM1")) == "action/qmgr/QM1/mqsc";
  }

  /**
   * Required arguments are not checked: a missing one is passed on as
   * `None` and interpolated as the text `None`.
   */
  lemma MissingArgumentsBecomeNone(c: Config, oracle: Oracle)
    ensures CallTool(c, oracle, JString("create_queue"), Obj([])).issued
            == [AdminRequest(POST, c.urlBase, "action/qmgr/None/mqsc",
                             JsonBody(RunCommandBody(JString("DEFINE QLOCAL(None)"))))]
  {
    var t := Registry.CreateQueue;
    ToolForName(t);
    var a := ArgValues(Obj([]), Registry.ArgNames(t)).value;
    assert a == [JNull, JNull, JString("local")];
    assert CatalogOp(c.variant, t, a) == Some(Mqsc.CreateQueue("None"));
    assert Mqsc.Command(Mqsc.CreateQueue("None")) == "DEFINE QLOCAL(None)";
    assert MqscPath(JNull) == "action/qmgr/None/mqsc";
  }

  /** The SSE bridge's `put_message` issues no request and echoes its arguments in a note. */
  lemma SsePutMessageIsANote(oracle: Oracle, base: string, qmgr: Json, queue: Json, message: Json)
    ensures var args := Obj([("qmgr_name", qmgr), ("queue_name", queue), ("message", message)]);
            CallTool(Config(SseBridge, base), oracle, JString("put_message"), args)
            == Run(Success([Registry.TextContent("text", PutNote(qmgr, queue, message))]), [])
  {
    var args := Obj([("qmgr_name", qmgr), ("queue_name", queue), ("message", message)]);
    var t := Registry.PutMessage;
    ToolForName(t);
    QueueArgsAnd(qmgr, queue, "message", message);
    assert Registry.ArgNames(t) == ["qmgr_name", "queue_name", "message"];
    var a := ArgValues(args, Registry.ArgNames(t)).value;
    assert Invoke(Config(SseBridge, base), oracle, t, a) == Run(Success(PutNote(qmgr, queue, message)), []);
  }

  /**
   * The stdio server's `put_message` POSTs the message as application data
   * and reports the shaped result after `Message put result: `, even when
   * the exchange failed.
   */
  lemma StdioPutMessage(oracle: Oracle, base: string, qmgr: Json, queue: Json, message: Json)
    ensures var args := Obj([("qmgr_name", qmgr), ("queue_name", queue), ("message", message)]);
            var r := CallTool(Config(StdioServer, base), oracle, JString("put_message"), args);
            && r.issued == [AdminRequest(POST, base, MessagePath(qmgr, queue), JsonBody(PutMessageBody(message)))]
            && r.value.Success? && |r.value.value| == 1
            && (oracle(r.issued[0]).Failure? ==>
                  r.value.value[0].text == PutResultPrefix + "{'error': " + ReprStr(oracle(r.issued[0]).error) + "}")
  {
    var args := Obj([("qmgr_name", qmgr), ("queue_name", queue), ("message", message)]);
    var c := Config(StdioServer, base);
    var t := Registry.PutMessage;
    ToolForName(t);
    QueueArgsAnd(qmgr, queue, "message", message);
    assert Registry.ArgNames(t) == ["qmgr_name", "queue_name", "message"];
    var a := ArgValues(args, Registry.ArgNames(t)).value;
    var out := RestMessage(c, oracle, POST, qmgr, queue, JsonBody(PutMessageBody(message)), PutResultPrefix);
    assert Invoke(c, oracle, t, a) == out;
    assert CallTool(c, oracle, JString("put_message"), args) == Run(Success([Registry.TextContent("text", out.value.value)]), out.issued);
  }

  /** The stdio server's `get_message` reads destructively: one DELETE on the message path. */
  lemma StdioGetMessage(oracle: Oracle, base: string, qmgr: Json, queue: Json)
    ensures var args := Obj([("qmgr_name", qmgr), ("queue_name", queue)]);
            CallTool(Config(StdioServer, base), oracle, JString("get_message"), args).issued
            == [AdminRequest(DELETE, base, MessagePath(qmgr, queue), NoBody)]
  {
    var args := Obj([("qmgr_name", qmgr), ("queue_name", queue)]);
    var t := Registry.GetMessage;
    ToolForName(t);
    QueueArgs(qmgr, queue);
    assert Registry.ArgNames(t) == ["qmgr_name", "queue_name"];
    var a := ArgValues(args, Registry.ArgNames(t)).value;
    assert Invoke(Config(StdioServer, base), oracle, t, a).issued
           == [AdminRequest(DELETE, base, MessagePath(qmgr, queue), NoBody)];
  }

  /** The stdio server's `browse_messages` reads without removing: one GET on the same path. */
  lemma StdioBrowseMessages(oracle: Oracle, base: string, qmgr: Json, queue: Json)
    ensures var args := Obj([("qmgr_name", qmgr), ("queue_name", queue)]);
            CallTool(Config(StdioServer, base), oracle, JString("browse_messages"), args).issued
            == [AdminRequest(GET, base, MessagePath(qmgr, queue), NoBody)]
  {
    var args := Obj([("qmgr_name", qmgr), ("queue_name", queue)]);
    var t := Registry.BrowseMessages;
    ToolForName(t);
    QueueArgs(qmgr, queue);
    assert Registry.ArgNames(t) == ["qmgr_name", "queue_name"];
    var a := ArgValues(args, Registry.ArgNames(t)).value;
    assert Invoke(Config(StdioServer, base), oracle, t, a).issued
           == [AdminRequest(GET, base, MessagePath(qmgr, queue), NoBody)];
  }
}
