/**
 * The first FastMCP server, with two tools. It decodes the reply body
 * itself, joins entry fields with `+` (so every field must already be a
 * string), builds the MQSC request body by concatenating text rather than
 * serialising a document, and answers every failure with the one fixed text
 * `Something went wrong!`.
 */
module Pretty {
  import opened Wrappers
  import opened Values
  import opened Admin
  import Text
  import Formatter
  import Mqsc
  import Strict

  const Wrong: string := "Something went wrong!"

  /** What a tool returns for one exchange: the keyed listing, or the fixed failure text. */
  function Prettified(answer: Answer, key: string, line: Json -> Result<string, Exc>): (r: string)
    ensures (answer.Success? && answer.value.Some? && Formatter.Keyed(answer.value.value, key, line).Success?) ==>
              r == Formatter.Keyed(answer.value.value, key, line).value
    ensures !(answer.Success? && answer.value.Some? && Formatter.Keyed(answer.value.value, key, line).Success?) ==>
              r == Wrong
  {
    match ResponseJson(answer)
    case Failure(_) => Wrong
    case Success(data) =>
      match Formatter.Keyed(data, key, line)
      case Success(text) => text
      case Failure(_) => Wrong
  }

  /** `dspmq()`: one GET of `qmgr/` on the local endpoint; the fields of each entry must be strings. */
  function Dspmq(oracle: Oracle): (r: Run<string>)
    ensures r.issued == [AdminRequest(GET, LocalUrlBase, "qmgr/", NoBody)]
    ensures r.value.Success?
    ensures r.value.value == Prettified(oracle(r.issued[0]), "qmgr", Formatter.PrettyQmgrLine)
  {
    var req := AdminRequest(GET, LocalUrlBase, "qmgr/", NoBody);
    Run(Success(Prettified(oracle(req), "qmgr", Formatter.PrettyQmgrLine)), [req])
  }

  const CommandPrefix: string := "{\"type\":\"runCommand\",\"parameters\":{\"command\":\""
  const CommandSuffix: string := "\"}}"

  /**
   * The request body text: the command is placed between the fixed opening
   * and closing text without any escaping, so it can be cut back out.
   */
  function RawCommandBody(command: string): (r: string)
    ensures Mqsc.Between(r, CommandPrefix, CommandSuffix) == Some(command)
  {
    Mqsc.BetweenFramed(CommandPrefix, command, CommandSuffix);
    CommandPrefix + command + CommandSuffix
  }

  /**
   * `runmqsc(qmgr_name, mqsc_command)`: one POST of the concatenated body to
   * the queue manager's MQSC action; both arguments are strings.
   */
  function Runmqsc(oracle: Oracle, qmgr: string, command: string): (r: Run<string>)
    ensures r.issued == [AdminRequest(POST, LocalUrlBase, "action/qmgr/" + qmgr + "/mqsc", RawBody(RawCommandBody(command)))]
    ensures Mqsc.Between(r.issued[0].body.text, CommandPrefix, CommandSuffix) == Some(command)
    ensures r.value.Success?
    ensures r.value.value == Prettified(oracle(r.issued[0]), "commandResponse", Formatter.CommandLine)
  {
    var req := AdminRequest(POST, LocalUrlBase, "action/qmgr/" + qmgr + "/mqsc", RawBody(RawCommandBody(command)));
    Run(Success(Prettified(oracle(req), "commandResponse", Formatter.CommandLine)), [req])
  }

  /**
   * The fixed failure text cannot be mistaken for a listing, which always
   * starts with the delimiter.
   */
  lemma FailureIsNotAListing(answer: Answer, key: string, line: Json -> Result<string, Exc>)
    ensures var r := Prettified(answer, key, line);
            (r == Wrong) <==> !(answer.Success? && answer.value.Some? && Formatter.Keyed(answer.value.value, key, line).Success?)
  {
    var r := Prettified(answer, key, line);
    if answer.Success? && answer.value.Some? && Formatter.Keyed(answer.value.value, key, line).Success? {
      assert r[..|Formatter.Delim|] == Formatter.Delim;
      assert Wrong[0] != Formatter.Delim[0];
    }
  }

  /** A queue manager entry whose name and state are strings. */
  predicate StringEntry(x: Json)
  {
    && x.JObject? && HasKey(x.fields, "name") && HasKey(x.fields, "state")
    && Lookup(x.fields, "name").value.JString? && Lookup(x.fields, "state").value.JString?
  }

  /** A string entry whose name and state hold no line break. */
  predicate PlainEntry(x: Json)
  {
    StringEntry(x) && Formatter.SingleLine(Lookup(x.fields, "name").value.s)
    && Formatter.SingleLine(Lookup(x.fields, "state").value.s)
  }

  function EntryText(x: Json): string
    requires StringEntry(x)
  {
    "name = " + Lookup(x.fields, "name").value.s + ", running = " + Lookup(x.fields, "state").value.s
  }

  /** The `dspmq` listing of a reply whose entries all carry string fields: one line per queue manager, in order. */
  lemma DspmqListsQueueManagers(oracle: Oracle, xs: seq<Json>)
    requires oracle(AdminRequest(GET, LocalUrlBase, "qmgr/", NoBody)) == Success(Some(Obj([("qmgr", JArray(xs))])))
    requires forall i :: 0 <= i < |xs| ==> StringEntry(xs[i])
    ensures Dspmq(oracle).value
            == Success(Formatter.Listing(seq(|xs|, i requires 0 <= i < |xs| && StringEntry(xs[i]) => EntryText(xs[i]))))
  {
    var data := Obj([("qmgr", JArray(xs))]);
    assert data.fields[0].0 == "qmgr";
    assert Lookup(data.fields, "qmgr") == Some(JArray(xs));
    var expected := seq(|xs|, i requires 0 <= i < |xs| && StringEntry(xs[i]) => EntryText(xs[i]));
    Formatter.KeyedLines(data, "qmgr", Formatter.PrettyQmgrLine, xs, expected);
  }

  lemma SingleLineJoin(a: string, b: string)
    requires Formatter.SingleLine(a) && Formatter.SingleLine(b)
    ensures Formatter.SingleLine(a + b)
  {
    forall k | 0 <= k < |a + b|
      ensures (a + b)[k] != '\n'
    {
      if k < |a| {
        assert (a + b)[k] == a[k];
      } else {
        assert (a + b)[k] == b[k - |a|];
      }
    }
  }

  lemma EntryTextSingleLine(x: Json)
    requires PlainEntry(x)
    ensures Formatter.SingleLine(EntryText(x))
  {
    var name := Lookup(x.fields, "name").value.s;
    var state := Lookup(x.fields, "state").value.s;
    assert Formatter.SingleLine("name = ");
    assert Formatter.SingleLine(", running = ");
    SingleLineJoin("name = ", name);
    SingleLineJoin("name = " + name, ", running = ");
    SingleLineJoin("name = " + name + ", running = ", state);
  }

  /**
   * The listing of queue managers whose names and states are single-line
   * strings splits back into one piece per queue manager: it holds one
   * delimiter per entry plus the leading one.
   */
  lemma DspmqDelimiterCount(oracle: Oracle, xs: seq<Json>)
    requires oracle(AdminRequest(GET, LocalUrlBase, "qmgr/", NoBody)) == Success(Some(Obj([("qmgr", JArray(xs))])))
    requires forall i :: 0 <= i < |xs| ==> PlainEntry(xs[i])
    ensures Text.Count(Dspmq(oracle).value.value, Formatter.Delim) == |xs| + 1
  {
    var lines := seq(|xs|, i requires 0 <= i < |xs| && StringEntry(xs[i]) => EntryText(xs[i]));
    DspmqListsQueueManagers(oracle, xs);
    forall i | 0 <= i < |lines|
      ensures Formatter.SingleLine(lines[i])
    {
      EntryTextSingleLine(xs[i]);
    }
    Formatter.ListingDelimiterCount(lines);
  }

  /** The first text line of a response entry. */
  function FirstText(x: Json): string
    requires Formatter.TextEntry(x)
  {
    Lookup(x.fields, "text").value.items[0].s
  }

  /** The first text line of each response entry, in order. */
  function FirstTexts(xs: seq<Json>): (r: seq<string>)
    requires forall i :: 0 <= i < |xs| ==> Formatter.TextEntry(xs[i])
    ensures |r| == |xs| && forall i :: 0 <= i < |xs| ==> r[i] == FirstText(xs[i])
  {
    seq(|xs|, i requires 0 <= i < |xs| => FirstText(xs[i]))
  }

  /**
   * The `runmqsc` listing of a well-formed reply: only the first element of
   * each entry's `text` array is kept, one delimited line per entry.
   */
  lemma RunmqscListsResponses(oracle: Oracle, qmgr: string, command: string, xs: seq<Json>)
    requires oracle(AdminRequest(POST, LocalUrlBase, "action/qmgr/" + qmgr + "/mqsc", RawBody(RawCommandBody(command))))
             == Success(Some(Obj([("commandResponse", JArray(xs))])))
    requires forall i :: 0 <= i < |xs| ==> Formatter.TextEntry(xs[i])
    ensures Runmqsc(oracle, qmgr, command).value
            == Success(Formatter.Listing(FirstTexts(xs)))
  {
    var data := Obj([("commandResponse", JArray(xs))]);
    assert data.fields[0].0 == "commandResponse";
    assert Lookup(data.fields, "commandResponse") == Some(JArray(xs));
    var expected := FirstTexts(xs);
    Formatter.KeyedLines(data, "commandResponse", Formatter.CommandLine, xs, expected);
  }

  /** The `runmqsc` listing holds one delimiter per response entry plus the leading one. */
  lemma RunmqscDelimiterCount(oracle: Oracle, qmgr: string, command: string, xs: seq<Json>)
    requires oracle(AdminRequest(POST, LocalUrlBase, "action/qmgr/" + qmgr + "/mqsc", RawBody(RawCommandBody(command))))
             == Success(Some(Obj([("commandResponse", JArray(xs))])))
    requires forall i :: 0 <= i < |xs| ==> Formatter.TextEntry(xs[i]) && Formatter.SingleLine(FirstText(xs[i]))
    ensures Text.Count(Runmqsc(oracle, qmgr, command).value.value, Formatter.Delim) == |xs| + 1
  {
    RunmqscListsResponses(oracle, qmgr, command, xs);
    var lines := FirstTexts(xs);
    Formatter.ListingDelimiterCount(lines);
  }

  /**
   * A queue manager whose name is not a string: the variants that render
   * with `str()` list it, while this one gives up with the failure text.
   */
  lemma NonStringNameIsAFailure(oracle: Oracle, n: int, state: string)
    requires oracle(AdminRequest(GET, LocalUrlBase, "qmgr/", NoBody))
             == Success(Some(Obj([("qmgr", JArray([Obj([("name", JInt(n)), ("state", JString(state))])]))])))
    ensures Dspmq(oracle).value == Success(Wrong)
    ensures Strict.Dspmq(oracle).value
            == Success(Formatter.Listing(["name = " + Str(JInt(n)) + ", running = " + state]))
  {
    var entry := Obj([("name", JInt(n)), ("state", JString(state))]);
    assert entry.fields[0].0 == "name" && entry.fields[1].0 == "state";
    assert Lookup(entry.fields, "name") == Some(JInt(n));
    assert Lookup(entry.fields, "state") == Some(JString(state));
    var data := Obj([("qmgr", JArray([entry]))]);
    assert data.fields[0].0 == "qmgr";
    assert Lookup(data.fields, "qmgr") == Some(JArray([entry]));
    assert Formatter.PrettyQmgrLine(entry).Failure?;
    assert Formatter.Keyed(data, "qmgr", Formatter.PrettyQmgrLine).Failure?;
    Formatter.KeyedLines(data, "qmgr", Formatter.QmgrLine, [entry], [Formatter.QmgrText(entry)]);
  }
}
