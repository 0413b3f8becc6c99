# IBM MQ MCP servers: a Dafny model of the tool core

The repository holds six Python servers. Each exposes IBM MQ administration
to MCP clients as "tools". Every tool turns its arguments into one or more
requests to the queue manager's REST administration API and renders the
reply as text. This project models that core with pure functions and proves
properties about it:
- what each tool sends;
- how each reply is rendered;
- which tool names each server advertises and accepts;
- how the JSON-RPC servers route messages.

The admin API is an **oracle**: a function from an `AdminRequest` (verb, URL
base, path, body) to either the text of the exception the exchange raised,
or the body as `response.json()` decodes it (`None` for an empty 2xx body).
The first FastMCP server decodes the raw bytes itself, as strict UTF-8; the
model gives it the same decoded body, which differs only for the encodings
listed under "Left out". Every handler returns a
`Run`, which holds:
- its value, or the Python exception it lets escape;
- the list of requests it issued.

So "exactly one request" and "raises" are both part of the contracts. JSON
values and the Python operations applied to them are modelled with Python's
semantics, each raising the exception Python would raise:
- `in`, `[key]`, `[0]` and `.get`;
- iteration;
- string `+` and f-string `str()`.

The modules follow the program's structure:

- `Wrappers`: the `Option` and `Result` types.
- `Text`: substring search, split and count.
  - `str.replace`.
  - Decimal rendering and parsing.
  - A hand-written matcher for the regular expression `CURDEPTH\((\d+)\)`, with `re.search`'s leftmost-match rule.
- `Values`: JSON values, Python exceptions, and the Python operations listed above, including `repr`.
- `Admin`: the admin API boundary.
  - `mq_request` shaping.
  - `response.json()`.
  - The messaging base URL.
  - The MQSC request body and path.
- `Formatter`: the `"\n---\n"`-delimited listings and the per-entry lines.
  - The listing loop of the variants that decode replies themselves.
  - The split/count round trip.
- `Mqsc`: the MQSC command templates of the catalog tools, with a parser that reads each command back.
- `Registry`: the tool descriptors each server advertises, and the handler table of the nineteen-tool catalog.
- `Raghi`: the two catalog servers, `raghi-sse-server.py` and `raghi_mcp_server.py`.
  - They share `mq_request`, which never raises, and the `"error" in result` short-circuit.
  - Their tools differ in four places. The SSE bridge lists queues with MQSC and answers `put_message` with a note. It falls back on the queue depth in `get_message` and reads the depth before browsing. The stdio server uses REST endpoints for all four.
- `Strict`: `simple_sse_server.py`, `mcp_sse_server.py` and `simple_mcp_server.py`.
  - They decode the reply themselves, index it with `data[key]` and report any exception as `Error: <str(e)>`.
  - Two dispatchers: `call_tool`, which raises for an unknown tool, and the plain SSE server's inline dispatch, which answers with text.
- `Pretty`: `mqmcpserver.py`.
  - It joins fields with `+`, so they must be strings.
  - It builds the MQSC body by string concatenation.
  - It answers every failure with `Something went wrong!`.
- `Rpc`: the JSON-RPC message handlers of the three servers that take messages over HTTP.

In these places the code behaves as follows:
- **The bridge's `put_message`** issues no admin request at all. It returns a note echoing its arguments.
- **Required arguments** are not checked before a request is made. A missing argument is passed on as `None` and appears in paths and commands as the text `None`.
- **Errors are not always text.** In the two catalog servers, a malformed reply can make the formatting loop raise, and the exception escapes the tool. Examples: an entry without `name`, or a non-string `text[0]`.
- **The bridge's `browse_messages`** reads message content from `messaging/...` under the admin base. Its `get_message` uses the `/v3/messaging/` base instead.
- **An empty reply, or one without the listed key,** lists nothing in the catalog servers. In the `Strict` variants it is an `Error:` report.
- **The first FastMCP server's MQSC body** is concatenated, not serialised. A command containing `"` or `\` therefore yields a body that is not the JSON document the other variants send.

## Model

| member | source | states |
|---|---|---|
| Admin.Shape | raghi-sse-server.py:108-111 | A failed exchange becomes a dict whose `error` member holds `str(e)` and which `"error" in` detects. An empty 2xx body becomes a dict that passes that test. A decoded body is kept unchanged. |
| Admin.MqRequest | raghi-sse-server.py:95-111 | Exactly one request with the given verb, path and body. Its base is the override when that is a non-empty string, and the configured base when the override is absent or empty (`base_url or URL_BASE`). The result is the shaped answer. |
| Admin.ShapedFailureText | mq-mcp-server-main/raghi_mcp_server.py:96-97 | A shaped failure renders as `{'error': ` followed by the `repr` of the message and `}`. |
| Admin.ShapedPlainFailureText | mq-mcp-server-main/raghi_mcp_server.py:96-97 | A message with no single quote, backslash or other character that `repr` escapes renders as `{'error': '<message>'}`. |
| Admin.DoubleQuotedFailureText | mq-mcp-server-main/raghi_mcp_server.py:96-97 | A message that `repr` puts between double quotes renders as `{'error': "<escaped message>"}`. |
| Admin.StatusErrorText | mq-mcp-server-main/raghi_mcp_server.py:93-97 | The text of a failed status check holds single quotes and a line break. It is therefore rendered between double quotes, with the break written as `\n`. |
| Admin.ResponseJson | mq-mcp-server-main/simple_sse_server.py:22-24 | `response.json()` after `raise_for_status()` succeeds exactly when the exchange succeeded with a body, and its value is that body. An empty body raises the JSON decoding error. A failed exchange raises an exception carrying its message. |
| Admin.MessagingBaseOfAdminBase | raghi-sse-server.py:166 | A base whose only mention of `/v2/admin/` is its ending becomes the same host with `/v3/messaging/`. |
| Admin.MessagingBaseUnchanged | raghi-sse-server.py:166 | A base that does not mention `/v2/admin/` is left unchanged by the replacement. |
| Admin.RunCommandBodyRoundTrip | raghi-sse-server.py:124 | The MQSC request body `{"type": "runCommand", "parameters": {"command": c}}` carries `c`, which can be read back from it. |
| Values.Lookup | raghi-sse-server.py:119 | A dict holds a key exactly when the lookup finds a value, and that value is one of the dict's members under that key. |
| Values.LookupLastWins | raghi-sse-server.py:119 | When a key occurs more than once, the lookup finds its last occurrence, as in the dict `json.loads` builds. |
| Values.Contains | raghi-sse-server.py:116 | `"error" in v`: key membership for a dict, item membership for a list, and a substring test for a string. It raises `TypeError` exactly for `None`, booleans and numbers. |
| Values.Subscript | raghi-sse-server.py:120 | `v[key]` succeeds exactly on a dict holding the key and yields its value. A dict without the key raises `KeyError` showing the quoted key. |
| Values.Get | raghi-sse-server.py:119 | `v.get(key, default)` succeeds exactly on a dict: the key's value, or the default. |
| Values.Iterate | raghi-sse-server.py:119 | A `for` loop visits a list's items in order, a dict's keys in order, or a string's characters. It raises `TypeError` on anything else. |
| Values.First | raghi-sse-server.py:130 | `v[0]` is a list's first item or a string's first character. An empty list or string raises `IndexError`, a dict raises `KeyError(0)`, and `None`, booleans and numbers raise `TypeError`. |
| Values.AppendStr | raghi-sse-server.py:130 | `v + "..."` succeeds exactly when `v` is a string, and then appends. |
| Values.PrependStr | mq-mcp-server-main/mqmcpserver.py:58 | `"..." + v` succeeds exactly when `v` is a string, and then prepends. |
| Values.CheckHashable | raghi-sse-server.py:89 | A handler-table lookup raises `TypeError` exactly for a list or dict name. |
| Values.Str | raghi-sse-server.py:117 | An f-string shows a string as itself and `None` as `None`. |
| Values.ReprStr | mq-mcp-server-main/raghi_mcp_server.py:158 | `repr(s)` is the escaped text between two equal quotes. The quote is `"` exactly when `s` holds `'` and no `"`. |
| Values.ReprStrRoundTrip | mq-mcp-server-main/raghi_mcp_server.py:158 | Reading the escapes between the quotes back gives `s` again, so `repr` loses nothing. |
| Values.ReprStrPlain | mq-mcp-server-main/raghi_mcp_server.py:158 | A text with no single quote, backslash or other character that `repr` escapes is shown between single quotes, unchanged. |
| Values.ReprOneMember | mq-mcp-server-main/raghi_mcp_server.py:158 | A one-member dict renders as `{`, the key's `repr`, `: `, the value's `repr` and `}`. |
| Values.ReprOneStringMember | mq-mcp-server-main/raghi_mcp_server.py:158 | A one-member dict holding a string renders as `{`, the key's `repr`, `: `, the value's `repr` and `}`. When neither needs escapes it reads `{'key': 'value'}`. |
| Formatter.MapLines | raghi-sse-server.py:119-120 | The loop succeeds exactly when every entry renders, producing one line per entry in order. Otherwise it stops with the exception of the first entry that fails. |
| Formatter.EntriesSplit | raghi-sse-server.py:118-121 | Splitting the delimited entries on the delimiter gives the lines back, followed by one empty piece. |
| Formatter.ListingSplit | raghi-sse-server.py:118-121 | Splitting a listing on `"\n---\n"` gives an empty piece, the single-line entries in order, and an empty piece. |
| Formatter.ListingDelimiterCount | mq-mcp-server-main/mqmcpserver.py:56-58 | A listing of single-line entries holds one delimiter per entry plus the leading one. |
| Formatter.QmgrLine | raghi-sse-server.py:120 | Succeeds exactly on a dict with `name` and `state`, giving `name = N, running = S` with both shown by `str()`. |
| Formatter.PrettyQmgrLine | mq-mcp-server-main/mqmcpserver.py:58 | Succeeds exactly when `name` and `state` are present and are strings, giving `name = N, running = S`. |
| Formatter.CommandLine | raghi-sse-server.py:130 | Succeeds exactly when the entry's `text` has a first element that is a string. The line is that element. |
| Formatter.QueueLine | mq-mcp-server-main/raghi_mcp_server.py:126 | Succeeds exactly on a dict with `name`, giving `Queue: N, Type: T`, where `T` is `N/A` when `type` is absent. |
| Formatter.Keyed | mq-mcp-server-main/simple_sse_server.py:24-28 | A reply without the key raises `KeyError('<key>')`. A member that cannot be iterated raises `TypeError`. For a list member: success exactly when every entry renders, giving the leading delimiter followed by one delimited line per entry. |
| Formatter.KeyedLines | mq-mcp-server-main/simple_sse_server.py:25-28 | A list whose entries all render yields exactly their lines, delimited, in order. |
| Mqsc.Parse | raghi-sse-server.py:133-214 | Whatever a command is read back as, rebuilding it from that operation gives the same command. |
| Mqsc.ParseRoundTrip | raghi-sse-server.py:133-214 | Every catalog command template reads back to the operation and object name it was built from, so distinct operations send distinct commands. |
| Registry.NameInjective | raghi-sse-server.py:67-87 | No two handlers share a name. |
| Registry.CatalogOrderComplete | raghi-sse-server.py:30-63 | The listing order names every catalog tool exactly once. |
| Registry.NameLookupRoundTrip | raghi-sse-server.py:67-89 | The handler table holds each tool under its own name, and under no other name. |
| Registry.DescriptorMatchesHandler | raghi-sse-server.py:30-87 | Each advertised descriptor carries its tool's name. It declares exactly the arguments the handler reads, and its required arguments are among them. |
| Registry.CatalogMatchesHandlers | raghi-sse-server.py:30-87 | `list_tools` advertises 19 distinct names. Each has a handler, every handler is advertised, and each handler reads exactly the declared properties. |
| Raghi.DefaultConfig | raghi-sse-server.py:13 | The SSE bridge defaults to the `host.docker.internal` admin base; the stdio server is fixed to `localhost`. |
| Raghi.Request | mq-mcp-server-main/raghi_mcp_server.py:81-97 | `mq_request` against the configured base issues exactly that one request and returns the shaped answer. |
| Raghi.Listed | raghi-sse-server.py:116-121 | An `error` member gives `Error: <message>`. A missing list gives the bare delimiter. A member that cannot be iterated raises `TypeError`. Otherwise the result succeeds exactly when every entry renders, and then it is the listing of their lines in order. |
| Raghi.Dspmq | raghi-sse-server.py:114-121 | One GET of `qmgr/`. A failed exchange gives `Error: <message>`, and an empty body gives the bare delimiter. |
| Raghi.Runmqsc | raghi-sse-server.py:123-131 | One POST of the runCommand body to `action/qmgr/<q>/mqsc`. Errors are reported as for `dspmq`. |
| Raghi.ListedLines | raghi-sse-server.py:118-120 | A list whose entries all render yields exactly their lines, delimited, in order. |
| Raghi.DspmqListsQueueManagers | raghi-sse-server.py:118-121 | A well-formed reply lists `name = N, running = S` for each queue manager, in array order. |
| Raghi.DspmqEmpty | raghi-sse-server.py:118-121 | A reply with a missing or empty `qmgr` list yields exactly `"\n---\n"`. |
| Raghi.RunmqscListsResponses | raghi-sse-server.py:128-131 | A well-formed reply lists the first text line of each response entry, in order. |
| Raghi.RestListQueues | mq-mcp-server-main/raghi_mcp_server.py:120-127 | One GET of `qmgr/<q>/queue`. A failure gives `Error: <message>`. |
| Raghi.ListQueuesListsQueues | mq-mcp-server-main/raghi_mcp_server.py:124-127 | A well-formed reply lists `Queue: N, Type: T` per queue in order, with `N/A` for a missing type. |
| Raghi.CatalogOp | raghi-sse-server.py:133-214 | Which tools delegate to an MQSC template: every catalog tool except `dspmq`, `runmqsc`, the three message tools, and (in the stdio server) `list_queues`. A template that names an object names `str()` of the second argument, unescaped. The four fixed commands name none. |
| Raghi.CatalogOpReadsOnlyTheName | raghi-sse-server.py:133-214 | Two argument lists that agree on the second argument select the same operation, so neither the queue manager nor `queue_type` enters the command. |
| Raghi.CreateQueueIgnoresType | raghi-sse-server.py:136-137 | `create_queue` defines the local queue named by `str(queue_name)`, whatever `queue_type` holds. |
| Raghi.Catalog | raghi-sse-server.py:133-158 | A catalog tool issues exactly one MQSC POST, whose body's command parses back to the tool's operation. It returns what `runmqsc` returns for that command: `Error: <message>` for a failed exchange, and otherwise the listing of the reply's `commandResponse`. |
| Raghi.RestMessage | mq-mcp-server-main/raghi_mcp_server.py:155-166 | The stdio message tools issue one request on the queue's message path. They always succeed with their prefix. A failure is shown after the prefix as `{'error': ` + `repr` of the message + `}`. |
| Raghi.DepthGuidance | raghi-sse-server.py:176-185 | The guidance is appended to the depth report, which stays intact as its prefix. |
| Raghi.GuidanceForDepth | raghi-sse-server.py:177-183 | When the first `CURDEPTH(n)` gives `n`, depth 0 gets "No messages to retrieve." and any other depth gets the loop command carrying `n`. The source raises instead past 4300 digits (see Left out). |
| Raghi.GuidanceWithoutDepth | raghi-sse-server.py:185 | A report without `CURDEPTH(<digits>)` gets the generic `amqsget` guidance. |
| Raghi.SseGetMessage | raghi-sse-server.py:163-185 | First a GET on the messaging base. A result without an `error` member is returned. Otherwise, including when the test raises, the depth command runs and guidance follows its report. |
| Raghi.RunmqscSingleReply | raghi-sse-server.py:128-131 | A one-entry reply is listed as that entry's text between two delimiters. |
| Raghi.GetMessageFallsBackOnDepth | raghi-sse-server.py:163-185 | End to end: when the messaging API fails and the depth is `n`, there are exactly two requests and the reply is the depth listing plus the guidance for `n`, up to the 4300-digit limit noted under Left out. |
| Raghi.SseBrowseMessages | raghi-sse-server.py:187-199 | The depth report comes first; if it raises, that is the outcome. Then one GET under `messaging/`, whose result is shown, or the `amqsbcg` note follows the report. |
| Raghi.BrowseFallsBackOnNote | raghi-sse-server.py:187-199 | End to end: when the depth command answers one line and the messaging call fails, there are exactly two requests. The reply is the depth listing followed by the `amqsbcg` note for the queue and queue manager. |
| Raghi.ArgValues | raghi-sse-server.py:67-87 | Each argument is `arguments.get(name)`: `None` when missing, `"local"` for `queue_type`. Arguments that are not a dict raise. |
| Raghi.Invoke | raghi-sse-server.py:65-91 | Each tool runs its own handler with the arguments in table order. A template tool runs its template through `runmqsc`. `dspmq` and `runmqsc` run their handlers. The four tools that differ between the two servers run the variant's handler: the SSE bridge's note, its depth fallback and its depth-first browse, or the stdio server's REST calls. |
| Raghi.CallTool | raghi-sse-server.py:65-93 | An unhashable name raises `TypeError`, and an unknown name raises `ValueError("Unknown tool: <name>")`; neither issues a request. A known name runs its handler and wraps the text in one text content. |
| Raghi.CatalogToolIssuesItsCommand | raghi-sse-server.py:133-214 | Every MQSC catalog tool called with a dict issues one POST to the named queue manager's MQSC action, whose command parses back to the tool's operation. |
| Raghi.CreateQueueExample | raghi-sse-server.py:136-137 | `create_queue` for `QM1`/`Q1` sends `DEFINE QLOCAL(Q1)` to `action/qmgr/QM1/mqsc`, whatever the queue type. |
| Raghi.MissingArgumentsBecomeNone | raghi-sse-server.py:71 | With no arguments, `create_queue` still issues its request, for queue manager `None` and queue `None`. |
| Raghi.SsePutMessageIsANote | raghi-sse-server.py:160-161 | The bridge's `put_message` issues no request and answers with the note echoing its arguments. |
| Raghi.StdioPutMessage | mq-mcp-server-main/raghi_mcp_server.py:155-158 | One POST of `{type: message, message: {applicationData: m}}`. A failure is shown after `Message put result: ` as `{'error': ` + `repr` of the message + `}`, never as `Error:`. |
| Raghi.StdioGetMessage | mq-mcp-server-main/raghi_mcp_server.py:160-162 | `get_message` is one DELETE on the message path. |
| Raghi.StdioBrowseMessages | mq-mcp-server-main/raghi_mcp_server.py:164-166 | `browse_messages` is one GET on the same path. |
| Text.ReplaceAbsent | raghi-sse-server.py:166 | `str.replace` leaves a text that does not contain the pattern unchanged. |
| Text.ReplaceOnlyAtEnd | raghi-sse-server.py:166 | When the pattern occurs only at the end of the text, `str.replace` swaps exactly that occurrence. |
| Text.NatToDecimal | raghi-sse-server.py:179-183 | `str()` of a depth: ASCII digits only, and no leading zero unless the number is 0. |
| Text.MatchAt | raghi-sse-server.py:177 | The pattern matches at an index exactly when the digit group is returned there, and that group is the text after the tag. |
| Text.SearchFrom | raghi-sse-server.py:177 | `re.search` finds the leftmost index with a match, and no index before it matches. When it finds none, no index matches. |
| Text.LeftmostDepth | raghi-sse-server.py:177-179 | The depth read is the value of the digit group of the leftmost match. |
| Text.CurDepth | raghi-sse-server.py:177-179 | `None` exactly when `CURDEPTH(<digits>)` occurs nowhere. Otherwise the value of the digit group of the leftmost match. |
| Text.DepthAfter | raghi-sse-server.py:177-179 | In a text whose first match is `CURDEPTH(<decimal of n>)`, the depth read is `n`. |
| Text.DecimalRoundTrip | raghi-sse-server.py:179-183 | Reading the decimal rendering of a number gives the number back. |
| Text.MatchIsMaximalRun | raghi-sse-server.py:177 | A match's digit group is the whole run of digits after the tag. |
| Strict.Rendered | mq-mcp-server-main/simple_sse_server.py:21-30 | A failed exchange gives `Error: <message>`. An empty body gives the JSON decoding error. A decoded reply gives its keyed listing, or `Error: <str(e)>` for the exception it raised. |
| Strict.Dspmq | mq-mcp-server-main/mcp_sse_server.py:53-68 | One GET of `qmgr/` on the local base; it never raises. A reply without `qmgr` gives `Error: 'qmgr'`. |
| Strict.Runmqsc | mq-mcp-server-main/simple_mcp_server.py:72-88 | One POST of the JSON runCommand body carrying the command to `action/qmgr/<q>/mqsc`; it never raises. A reply without `commandResponse` gives `Error: 'commandResponse'`. |
| Strict.RenderedClassifies | mq-mcp-server-main/simple_sse_server.py:25-30 | A listing starts with the delimiter. Every other outcome starts with `Error: `. |
| Strict.DspmqListsQueueManagers | mq-mcp-server-main/simple_mcp_server.py:65-68 | A well-formed reply lists one `name = N, running = S` line per queue manager, in order. |
| Strict.RunmqscListsResponses | mq-mcp-server-main/simple_mcp_server.py:83-86 | A well-formed reply lists the first text line of each response entry, in order. |
| Strict.ListedAgreesWithKeyed | mq-mcp-server-main/mcp_sse_server.py:62-66 | On a reply without `error` whose member is a list, the shaping loop and the keyed loop have the same outcome. |
| Strict.DspmqAgreesWithStdioServer | mq-mcp-server-main/mcp_sse_server.py:53-68 | A failed exchange gives the same text as in the stdio catalog server. On a proper list reply the two listings coincide, and where that server raises, this one reports the exception. |
| Strict.DspmqDivergesOnEmptyReplies | mq-mcp-server-main/mcp_sse_server.py:62-68 | A reply without `qmgr` is the bare delimiter in the stdio catalog server and `Error: 'qmgr'` here. |
| Strict.RunmqscArgs | mq-mcp-server-main/mcp_sse_server.py:46-47 | Reading `qmgr_name` and `mqsc_command` succeeds exactly for a dict; otherwise `AttributeError`. |
| Strict.CallTool | mq-mcp-server-main/mcp_sse_server.py:40-51 | `dspmq` and `runmqsc` each give one text content from exactly their one request. Any other name raises `ValueError("Unknown tool: <name>")` with no request. |
| Strict.InlineCall | mq-mcp-server-main/simple_sse_server.py:96-101 | The same two tools. Any other name is answered with the text `Unknown tool: <name>` and no request. |
| Strict.InlineAgreesWithServer | mq-mcp-server-main/simple_sse_server.py:96-101 | The inline and `call_tool` dispatchers issue the same requests and agree on the known tools. On an unknown name one raises the very text the other returns. |
| Strict.ListedToolsAreDispatched | mq-mcp-server-main/simple_mcp_server.py:17-53 | With dict arguments: each advertised tool issues one request and returns one text item. Every other name raises `ValueError` before any request. |
| Pretty.Prettified | mq-mcp-server-main/mqmcpserver.py:45-51 | The keyed listing when the exchange succeeded and the reply formats; `Something went wrong!` in every other case. The body is taken as already decoded (see Left out). |
| Pretty.Dspmq | mq-mcp-server-main/mqmcpserver.py:32-60 | One GET of `qmgr/` on the local base; it never raises. |
| Pretty.RawCommandBody | mq-mcp-server-main/mqmcpserver.py:75 | The body is the fixed opening, the command unescaped, and `"}}`. The command can be cut back out exactly. |
| Pretty.Runmqsc | mq-mcp-server-main/mqmcpserver.py:62-87 | One POST of the concatenated body to `action/qmgr/<q>/mqsc` with the name unescaped; it never raises. |
| Pretty.FailureIsNotAListing | mq-mcp-server-main/mqmcpserver.py:49-51 | The result is `Something went wrong!` exactly when the exchange or the formatting failed. |
| Pretty.DspmqListsQueueManagers | mq-mcp-server-main/mqmcpserver.py:54-60 | A reply with string names and states lists `name = N, running = S` per queue manager, in order. |
| Pretty.DspmqDelimiterCount | mq-mcp-server-main/mqmcpserver.py:56-58 | With single-line names and states, the listing holds one delimiter per queue manager plus one. |
| Pretty.RunmqscListsResponses | mq-mcp-server-main/mqmcpserver.py:91-97 | Only the first element of each entry's `text` is kept, one delimited line per entry, in order. |
| Pretty.RunmqscDelimiterCount | mq-mcp-server-main/mqmcpserver.py:93-95 | With single-line first texts, the listing holds one delimiter per response entry plus one. |
| Pretty.NonStringNameIsAFailure | mq-mcp-server-main/mqmcpserver.py:58 | A queue manager with a numeric name gives `Something went wrong!` here. The `str()`-rendering variants list it. |
| Rpc.Initialization | raghi-sse-server.py:217-227 | Protocol version `2025-06-18`, version `1.0.0`, and server name `raghi-mq-sse-server` for the bridge, `ibm-mq-server` for the others. Capabilities are `{"experimental": {}, "tools": {"listChanged": false}}`, except in the plain SSE server, which answers `{"tools": {}}`. |
| Rpc.Call | raghi-sse-server.py:235-238 | An unknown name issues no request. The plain server answers it as text and the others raise. A known name runs the server's own dispatcher: the bridge's `call_tool`, the MCP SSE server's `call_tool`, or the plain server's inline dispatch, whose text becomes one text item. Every successful call answers exactly one text item. |
| Rpc.Handle | raghi-sse-server.py:216-250 | Every response carries `jsonrpc` `2.0` and the request's `id`. `initialize` and `tools/list` issue no request. `tools/call` reads `params` and `arguments` with `{}` defaults and wraps the dispatcher's content. Any other method gets -32601 `Method not found`. |
| Rpc.ToolsCallMessage | raghi-sse-server.py:235-244 | A `tools/call` message answers exactly what the server's dispatcher gives for its `name` and `arguments`: the same requests, the same exception, or its content in a response carrying the message's id. |
| Rpc.MethodNotFoundIffUnknown | mq-mcp-server-main/simple_sse_server.py:108-113 | A response carries the error exactly when the method is none of the three known ones, and its code is -32601. |
| Rpc.AdvertisedToolsAreDispatched | mq-mcp-server-main/mcp_sse_server.py:100-111 | On every server, a name is advertised by `tools/list` exactly when the dispatcher handles it. |
| Rpc.UnadvertisedToolIsRefused | mq-mcp-server-main/simple_sse_server.py:91-107 | A call to an unadvertised tool issues no request. The plain server answers `Unknown tool: <name>` in a success envelope; the others raise `ValueError`. |
| Rpc.CreateQueueOverRpc | raghi-sse-server.py:235-244 | A `tools/call` message for `create_queue` issues exactly the one MQSC request `DEFINE QLOCAL(Q1)`. |

## Left out

- The HTTP exchange itself is the oracle. The model leaves out Basic authentication, the CSRF header, TLS verification being off, and the 30-second timeout; none of them affects the text a tool returns.
- The FastAPI routes, CORS middleware, the health endpoint and uvicorn are left out. They are web plumbing around the message handlers.
- The SSE streams are left out: the connection event, the ping loop and the disconnect polling. They concern liveness, not results.
- The stdio loops and startup code of the `Server` and FastMCP variants are left out. So is FastMCP's argument validation in the first FastMCP server; its two tools are modelled with string arguments.
- Rendering of tool results: pydantic's `model_dump` of descriptors and text contents is rendered as the `Registry` and `Rpc` datatypes, not as JSON dicts. Extra optional members such as annotations are not modelled.
- `repr` follows Python in its choice of quote and its escapes for control and Latin-1 characters. Characters above U+00FF are kept as they are, because Python's printability table for them is not modelled. JSON numbers are integers only.
- Values.Iterate: a decoded object with a repeated key is iterated, and shown by `Values.Repr`, with every member. `json.loads` keeps only the last one, which is what `Values.Lookup` finds.
- `\d` in the depth pattern matches ASCII digits only; Python also accepts other Unicode decimal digits.
- The `MQ_URL`, `MQ_USER` and `MQ_PASSWORD` environment variables: the bridge's URL base is a parameter of its configuration, and the credentials are not modelled.
- The test scripts only print what a live server returns, so they are not modelled.
- `print` of the caught exception in the first FastMCP server is not modelled, because it writes to the console only.
- Pretty.Prettified: `mqmcpserver.py` decodes the reply as strict UTF-8 (`payload.decode("utf-8")`) before `json.loads`. A body with a UTF-8 byte order mark, or one in UTF-16 or UTF-32, fails there and gives `Something went wrong!`. The model takes the decoded body that `response.json()` would give, so for such a body it shows the listing. Byte-level decoding is not modelled.
- Pretty.Dspmq: for the same reason, a reply with a byte order mark or in UTF-16 or UTF-32 is shown as a listing by the model but gives `Something went wrong!` in the source.
- Pretty.Runmqsc: likewise for the MQSC reply.
- Raghi.GuidanceForDepth: Python's `int()` refuses a decimal text longer than 4300 digits (leading zeros included) under CPython's default integer-conversion limit. It raises `ValueError` at `raghi-sse-server.py:179`, outside the `try`, so `get_message` raises. The model gives the loop guidance for every depth `n`, which is faithful only while the digit run in the listing is at most 4300 characters long.
- Raghi.GetMessageFallsBackOnDepth: the same 4300-digit limit applies. For a longer `CURDEPTH` digit run the source raises `ValueError`, whereas the model answers with the depth listing and guidance.
- Pretty.RawCommandBody: the model does not state what a JSON parser makes of a body whose command holds quotes, because JSON decoding is not modelled. It states only that the command is embedded unescaped.
