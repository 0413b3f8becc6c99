/**
 * The three two-tool variants that talk to the admin API directly: the
 * plain SSE server, the SSE server built on the MCP `Server` class, and the
 * stdio server built on the same class. Their `dspmq` and `runmqsc` are the
 * same: one request to the fixed local endpoint, the reply decoded and
 * indexed with `data[key]`, and any exception on the way reported as the
 * text `Error: <str(e)>`, so neither ever raises.
 *
 * The `Server`-based variants dispatch with `call_tool`, which raises
 * `ValueError` for an unknown tool; the plain SSE server dispatches inline
 * and answers an unknown tool with text.
 */
module Strict {
  import opened Wrappers
  import opened Values
  import opened Admin
  import Formatter
  import Registry
  import Raghi

  /** What the handler returns for one exchange: the keyed listing, or the report of the first exception. */
  function Rendered(answer: Answer, key: string, line: Json -> Result<string, Exc>): (r: string)
    ensures answer.Failure? ==> r == "Error: " + answer.error
    ensures answer == Success(None) ==> r == "Error: " + EmptyBodyError
    ensures answer.Success? && answer.value.Some? ==>
              (var k := Formatter.Keyed(answer.value.value, key, line);
               && (k.Success? ==> r == k.value)
               && (k.Failure? ==> r == "Error: " + Message(k.error)))
  {
    match ResponseJson(answer)
    case Failure(e) =>
      assert answer == Success(None) ==> Message(e) == EmptyBodyError;
      "Error: " + Message(e)
    case Success(data) =>
      match Formatter.Keyed(data, key, line)
      case Success(text) => text
      case Failure(e) => "Error: " + Message(e)
  }

  /** A decoded dict without the listed key is reported as the `KeyError` naming that key. */
  lemma MissingKeyReported(answer: Answer, key: string, line: Json -> Result<string, Exc>)
    ensures answer.Success? && answer.value.Some? && answer.value.value.JObject?
            && !HasKey(answer.value.value.fields, key) ==>
              Rendered(answer, key, line) == "Error: " + ReprStr(key)
  {
  }

  /** The same, for a key whose `repr` is the key between single quotes. */
  lemma MissingPlainKeyReported(answer: Answer, key: string, quoted: string, line: Json -> Result<string, Exc>)
    requires quoted == "'" + key + "'" && PlainFor(key, '\'')
    ensures answer.Success? && answer.value.Some? && answer.value.value.JObject?
            && !HasKey(answer.value.value.fields, key) ==>
              Rendered(answer, key, line) == "Error: " + quoted
  {
    MissingKeyReported(answer, key, line);
    ReprStrOfPlain(key, quoted);
  }

  /** `dspmq()`: one GET of `qmgr/` on the local endpoint; it never raises. */
  function Dspmq(oracle: Oracle): (r: Run<string>)
    ensures r.issued == [AdminRequest(GET, LocalUrlBase, "qmgr/", NoBody)]
    ensures r.value.Success?
    ensures oracle(r.issued[0]).Failure? ==> r.value.value == "Error: " + oracle(r.issued[0]).error
    ensures oracle(r.issued[0]) == Success(None) ==> r.value.value == "Error: " + EmptyBodyError
    ensures var a := oracle(r.issued[0]);
            a.Success? && a.value.Some? && a.value.value.JObject? && !HasKey(a.value.value.fields, "qmgr") ==>
              r.value.value == "Error: 'qmgr'"
    ensures r.value.value == Rendered(oracle(r.issued[0]), "qmgr", Formatter.QmgrLine)
  {
    var req := AdminRequest(GET, LocalUrlBase, "qmgr/", NoBody);
    MissingPlainKeyReported(oracle(req), "qmgr", "'qmgr'", Formatter.QmgrLine);
    Run(Success(Rendered(oracle(req), "qmgr", Formatter.QmgrLine)), [req])
  }

  /** The report of the missing key `commandResponse`: the key needs neither escapes nor double quotes. */
  lemma CommandResponseRepr()
    ensures "Error: " + ReprStr("commandResponse") == "Error: 'commandResponse'"
  {
    ReprStrOfPlain("commandResponse", "'commandResponse'");
  }

  /** A reply without `commandResponse` is reported as that missing key. */
  lemma CommandResponseMissing(answer: Answer, line: Json -> Result<string, Exc>)
    ensures answer.Success? && answer.value.Some? && answer.value.value.JObject?
            && !HasKey(answer.value.value.fields, "commandResponse") ==>
              Rendered(answer, "commandResponse", line) == "Error: 'commandResponse'"
  {
    CommandResponseRepr();
    MissingKeyReported(answer, "commandResponse", line);
  }

  /**
   * `runmqsc(qmgr_name, mqsc_command)`: one POST of the JSON command body to
   * the queue manager's MQSC action; it never raises.
   */
  function Runmqsc(oracle: Oracle, qmgr: Json, command: Json): (r: Run<string>)
    ensures r.issued == [AdminRequest(POST, LocalUrlBase, MqscPath(qmgr), JsonBody(RunCommandBody(command)))]
    ensures CommandOf(r.issued[0].body) == Some(command)
    ensures r.value.Success?
    ensures oracle(r.issued[0]).Failure? ==> r.value.value == "Error: " + oracle(r.issued[0]).error
    ensures var a := oracle(r.issued[0]);
            a.Success? && a.value.Some? && a.value.value.JObject? && !HasKey(a.value.value.fields, "commandResponse") ==>
              r.value.value == "Error: 'commandResponse'"
    ensures r.value.value == Rendered(oracle(r.issued[0]), "commandResponse", Formatter.CommandLine)
  {
    RunCommandBodyRoundTrip(command);
    var req := AdminRequest(POST, LocalUrlBase, MqscPath(qmgr), JsonBody(RunCommandBody(command)));
    CommandResponseMissing(oracle(req), Formatter.CommandLine);
    Run(Success(Rendered(oracle(req), "commandResponse", Formatter.CommandLine)), [req])
  }

  /**
   * A rendered reply can be told apart by its first characters: a listing
   * starts with the delimiter, and everything else is an error report.
   */
  lemma RenderedClassifies(answer: Answer, key: string, line: Json -> Result<string, Exc>)
    ensures var r := Rendered(answer, key, line);
            var listed := answer.Success? && answer.value.Some?
                          && Formatter.Keyed(answer.value.value, key, line).Success?;
            && (listed ==> |r| >= |Formatter.Delim| && r[..|Formatter.Delim|] == Formatter.Delim)
            && (!listed ==> |r| >= 7 && r[..7] == "Error: ")
  {
    var r := Rendered(answer, key, line);
    if answer.Success? && answer.value.Some? && Formatter.Keyed(answer.value.value, key, line).Success? {
    } else {
      var e := if answer.Failure? then answer.error
               else if answer.value.None? then EmptyBodyError
               else Message(Formatter.Keyed(answer.value.value, key, line).error);
      assert r == "Error: " + e;
      assert r[..7] == "Error: ";
    }
  }

  /** The `dspmq` listing of a well-formed reply: one `name = N, running = S` line per queue manager, in order. */
  lemma DspmqListsQueueManagers(oracle: Oracle, xs: seq<Json>)
    requires oracle(AdminRequest(GET, LocalUrlBase, "qmgr/", NoBody)) == Success(Some(Obj([("qmgr", JArray(xs))])))
    requires forall i :: 0 <= i < |xs| ==> xs[i].JObject? && HasKey(xs[i].fields, "name") && HasKey(xs[i].fields, "state")
    ensures Dspmq(oracle).value
            == Success(Formatter.Listing(seq(|xs|, i requires 0 <= i < |xs| => Formatter.QmgrText(xs[i]))))
  {
    var data := Obj([("qmgr", JArray(xs))]);
    assert data.fields[0].0 == "qmgr";
    assert Lookup(data.fields, "qmgr") == Some(JArray(xs));
    var expected := seq(|xs|, i requires 0 <= i < |xs| => Formatter.QmgrText(xs[i]));
    Formatter.KeyedLines(data, "qmgr", Formatter.QmgrLine, xs, expected);
  }

  /** The `runmqsc` listing of a well-formed reply: the first text line of each response entry, in order. */
  lemma RunmqscListsResponses(oracle: Oracle, qmgr: Json, command: Json, xs: seq<Json>)
    requires oracle(AdminRequest(POST, LocalUrlBase, MqscPath(qmgr), JsonBody(RunCommandBody(command))))
             == Success(Some(Obj([("commandResponse", JArray(xs))])))
    requires forall i :: 0 <= i < |xs| ==> Formatter.TextEntry(xs[i])
    ensures Runmqsc(oracle, qmgr, command).value
            == Success(Formatter.Listing(seq(|xs|, i requires 0 <= i < |xs| && Formatter.TextEntry(xs[i]) =>
                                                   Lookup(xs[i].fields, "text").value.items[0].s)))
  {
    var data := Obj([("commandResponse", JArray(xs))]);
    assert data.fields[0].0 == "commandResponse";
    assert Lookup(data.fields, "commandResponse") == Some(JArray(xs));
    var expected := seq(|xs|, i requires 0 <= i < |xs| && Formatter.TextEntry(xs[i]) =>
                                Lookup(xs[i].fields, "text").value.items[0].s);
    Formatter.KeyedLines(data, "commandResponse", Formatter.CommandLine, xs, expected);
  }

  /* ---------------------------------------------------------------------
   * agreement with the shaping variants
   * ------------------------------------------------------------------- */

  /**
   * On a reply without an `"error"` member whose `key` member is a list, the
   * shaping listing and the keyed listing meet the same entries and so have
   * the same outcome.
   */
  lemma ListedAgreesWithKeyed(data: Json, key: string, line: Json -> Result<string, Exc>)
    requires data.JObject? && !HasKey(data.fields, "error")
    requires HasKey(data.fields, key) && Lookup(data.fields, key).value.JArray?
    ensures Raghi.Listed(data, key, line) == Formatter.Keyed(data, key, line)
  {
    var xs := Lookup(data.fields, key).value.items;
    assert Contains("error", data) == Success(false);
    assert Get(data, key, JArray([])) == Success(JArray(xs));
    assert Subscript(data, key) == Success(JArray(xs));
  }

  /**
   * The stdio catalog server and these variants list queue managers the
   * same way when the exchange fails and when the reply is a proper listing;
   * where the former lets an exception escape, these report it as text.
   */
  lemma DspmqAgreesWithStdioServer(oracle: Oracle)
    ensures var lenient := Raghi.Dspmq(Raghi.DefaultConfig(Raghi.StdioServer), oracle).value;
            var strict := Dspmq(oracle).value.value;
            var a := oracle(AdminRequest(GET, LocalUrlBase, "qmgr/", NoBody));
            && (a.Failure? ==> lenient == Success(strict))
            && (a.Success? && a.value.Some? && a.value.value.JObject? && !HasKey(a.value.value.fields, "error")
                && HasKey(a.value.value.fields, "qmgr") && Lookup(a.value.value.fields, "qmgr").value.JArray? ==>
                  && (lenient.Success? ==> strict == lenient.value)
                  && (lenient.Failure? ==> strict == "Error: " + Message(lenient.error)))
  {
    var a := oracle(AdminRequest(GET, LocalUrlBase, "qmgr/", NoBody));
    if a.Success? && a.value.Some? && a.value.value.JObject? && !HasKey(a.value.value.fields, "error")
       && HasKey(a.value.value.fields, "qmgr") && Lookup(a.value.value.fields, "qmgr").value.JArray? {
      ListedAgreesWithKeyed(a.value.value, "qmgr", Formatter.QmgrLine);
    }
  }

  /**
   * Where the two families part: an empty reply lists nothing in the stdio
   * catalog server and is a decoding error here, and so is a reply without
   * a `qmgr` member.
   */
  lemma DspmqDivergesOnEmptyReplies(oracle: Oracle, fields: seq<(string, Json)>)
    requires oracle(AdminRequest(GET, LocalUrlBase, "qmgr/", NoBody)) == Success(Some(JObject(fields)))
    requires !HasKey(fields, "error") && !HasKey(fields, "qmgr")
    ensures Raghi.Dspmq(Raghi.DefaultConfig(Raghi.StdioServer), oracle).value == Success(Formatter.Delim)
    ensures Dspmq(oracle).value == Success("Error: 'qmgr'")
  {
    Raghi.DspmqEmpty(Raghi.DefaultConfig(Raghi.StdioServer), oracle, fields);
  }

  /* ---------------------------------------------------------------------
   * dispatch
   * ------------------------------------------------------------------- */

  /** The arguments of `runmqsc`, read with `arguments.get`; only a dict has `get`. */
  function RunmqscArgs(args: Json): (r: Result<(Json, Json), Exc>)
    ensures r.Success? <==> args.JObject?
    ensures r.Success? ==> r.value == (Lookup(args.fields, "qmgr_name").GetOr(JNull),
                                       Lookup(args.fields, "mqsc_command").GetOr(JNull))
    ensures r.Failure? ==> r.error == AttributeError("'" + TypeName(args) + "' object has no attribute 'get'")
  {
    match Get(args, "qmgr_name", JNull)
    case Failure(e) => Failure(e)
    case Success(qmgr) => Success((qmgr, Lookup(args.fields, "mqsc_command").GetOr(JNull)))
  }

  /**
   * `call_tool(name, arguments)` of the `Server`-based variants: the two
   * tools by name, `ValueError` for any other name, and `AttributeError`
   * when `runmqsc` is given arguments that are not a dict.
   */
  function CallTool(oracle: Oracle, name: Json, args: Json): (r: Run<seq<Registry.TextContent>>)
    ensures name == JString("dspmq") ==>
              && r.issued == [AdminRequest(GET, LocalUrlBase, "qmgr/", NoBody)]
              && r.value == Success([Registry.TextContent("text", Dspmq(oracle).value.value)])
    ensures name == JString("runmqsc") && !args.JObject? ==>
              r == Run(Failure(AttributeError("'" + TypeName(args) + "' object has no attribute 'get'")), [])
    ensures name == JString("runmqsc") && args.JObject? ==>
              (var qmgr := Lookup(args.fields, "qmgr_name").GetOr(JNull);
               var command := Lookup(args.fields, "mqsc_command").GetOr(JNull);
               && r.issued == [AdminRequest(POST, LocalUrlBase, MqscPath(qmgr), JsonBody(RunCommandBody(command)))]
               && r.value == Success([Registry.TextContent("text", Runmqsc(oracle, qmgr, command).value.value)]))
    ensures name != JString("dspmq") && name != JString("runmqsc") ==>
              r == Run(Failure(ValueError("Unknown tool: " + Str(name))), [])
  {
    if name == JString("dspmq") then
      var out := Dspmq(oracle);
      Run(Success([Registry.TextContent("text", out.value.value)]), out.issued)
    else if name == JString("runmqsc") then
      match RunmqscArgs(args)
      case Failure(e) => Run(Failure(e), [])
      case Success((qmgr, command)) =>
        var out := Runmqsc(oracle, qmgr, command);
        Run(Success([Registry.TextContent("text", out.value.value)]), out.issued)
    else
      Run(Failure(ValueError("Unknown tool: " + Str(name))), [])
  }

  /**
   * The inline dispatch of the plain SSE server: the same two tools, and
   * the text `Unknown tool: <name>` with no request for any other name.
   */
  function InlineCall(oracle: Oracle, name: Json, args: Json): (r: Run<string>)
    ensures name == JString("dspmq") ==> r == Dspmq(oracle)
    ensures name == JString("runmqsc") && !args.JObject? ==> r.value.Failure? && r.value.error.AttributeError? && r.issued == []
    ensures name == JString("runmqsc") && args.JObject? ==>
              r == Runmqsc(oracle, Lookup(args.fields, "qmgr_name").GetOr(JNull), Lookup(args.fields, "mqsc_command").GetOr(JNull))
    ensures name != JString("dspmq") && name != JString("runmqsc") ==>
              r == Run(Success("Unknown tool: " + Str(name)), [])
  {
    if name == JString("dspmq") then Dspmq(oracle)
    else if name == JString("runmqsc") then
      match RunmqscArgs(args)
      case Failure(e) => Run(Failure(e), [])
      case Success((qmgr, command)) => Runmqsc(oracle, qmgr, command)
    else Run(Success("Unknown tool: " + Str(name)), [])
  }

  /**
   * The two dispatchers agree on the tools they know, up to wrapping the
   * text in a content item, and differ only on unknown names: one raises,
   * the other answers with text. Neither issues a request for an unknown name.
   */
  lemma InlineAgreesWithServer(oracle: Oracle, name: Json, args: Json)
    ensures var server := CallTool(oracle, name, args);
            var inline := InlineCall(oracle, name, args);
            && server.issued == inline.issued
            && (inline.value.Failure? ==> server.value == Failure(inline.value.error))
            && (name == JString("dspmq") || name == JString("runmqsc") ==>
                  (inline.value.Success? ==> server.value == Success([Registry.TextContent("text", inline.value.value)])))
            && (name != JString("dspmq") && name != JString("runmqsc") ==>
                  && server.value.Failure? && inline.value.Success?
                  && server.value.error == ValueError(inline.value.value))
  {
  }

  /**
   * Every tool the `Server`-based variants list is one `call_tool`
   * dispatches: called with a dict of arguments it issues exactly one
   * request and returns one text item; any name outside the list raises
   * before a request is made.
   */
  lemma ListedToolsAreDispatched(oracle: Oracle, name: Json, args: Json)
    requires args.JObject?
    ensures var listed := exists i :: 0 <= i < |Registry.CoreTools()| && name == JString(Registry.CoreTools()[i].name);
            var r := CallTool(oracle, name, args);
            && (listed ==> |r.issued| == 1 && r.value.Success? && |r.value.value| == 1)
            && (!listed ==> r.issued == [] && r.value.Failure? && r.value.error.ValueError?)
  {
    var tools := Registry.CoreTools();
    assert tools[0].name == "dspmq" && tools[1].name == "runmqsc";
    if name != JString("dspmq") && name != JString("runmqsc") {
      assert forall i :: 0 <= i < |tools| ==> name != JString(tools[i].name);
    }
  }
}
