/**
 * The boundary to the queue manager's REST administration API. The HTTP
 * exchange itself (authentication, CSRF header, TLS policy, timeout) is not
 * modelled: an `Oracle` answers each `AdminRequest` with either the text of
 * the exception the exchange raised, or the decoded body (`None` when the
 * 2xx response had no content). Handlers report the requests they issued
 * alongside their value, so the number and shape of admin calls is part of
 * every contract.
 */
module Admin {
  import opened Wrappers
  import opened Values
  import Text

  datatype HttpMethod = GET | POST | DELETE

  /** The request body: none, a JSON document, or a hand-built string. */
  datatype Payload = NoBody | JsonBody(json: Json) | RawBody(text: string)

  datatype AdminRequest = AdminRequest(verb: HttpMethod, base: string, path: string, body: Payload)
  {
    function Url(): string
    {
      base + path
    }
  }

  /** What one HTTP exchange produced: `Failure(str(e))`, or the decoded body if any. */
  type Answer = Result<Option<Json>, string>

  type Oracle = AdminRequest -> Answer

  /** A handler's outcome (its value or the exception it let escape) and the admin requests it issued, in order. */
  datatype Run<T> = Run(value: Result<T, Exc>, issued: seq<AdminRequest>)

  /** The admin endpoint the SSE bridge uses when `MQ_URL` is not set. */
  const SseUrlBase: string := "https://host.docker.internal:9443/ibmmq/rest/v2/admin/"

  /** The admin endpoint hard-wired into the other server variants. */
  const LocalUrlBase: string := "https://localhost:9443/ibmmq/rest/v2/admin/"

  const AdminVersionPath: string := "/v2/admin/"
  const MessagingVersionPath: string := "/v3/messaging/"

  /** The error marker a successful exchange with an empty body is turned into. */
  function StatusSuccess(): Json
  {
    Obj([("status", JString("success"))])
  }

  /**
   * The shaping `mq_request` applies to an exchange: it never raises, a
   * failure becomes `{"error": str(e)}` and an empty body becomes
   * `{"status": "success"}`. The contract says how the handlers' subsequent
   * `"error" in result` test classifies each case.
   */
  function Shape(answer: Answer): (r: Json)
    ensures answer.Failure? ==> Contains("error", r) == Success(true)
                                && Subscript(r, "error") == Success(JString(answer.error))
    ensures answer == Success(None) ==> Contains("error", r) == Success(false)
                                        && Subscript(r, "status") == Success(JString("success"))
    ensures answer.Success? && answer.value.Some? ==> r == answer.value.value
  {
    match answer
    case Failure(m) =>
      var r := Obj([("error", JString(m))]);
      assert r.fields[0].0 == "error";
      r
    case Success(None) =>
      var r := StatusSuccess();
      assert r.fields[0].0 == "status";
      assert !HasKey(r.fields, "error");
      r
    case Success(Some(j)) => j
  }

  /**
   * How a failed exchange's shaped result reads when it is rendered into
   * text: the message appears as Python's `repr` writes it.
   */
  lemma ShapedFailureText(m: string)
    ensures Str(Shape(Failure(m))) == "{'error': " + ReprStr(m) + "}"
  {
    var shaped := Obj([("error", JString(m))]);
    assert Shape(Failure(m)) == shaped;
    ReprStrOfPlain("error", "'error'");
    ReprOneMember("error", JString(m));
    assert "{" + "'error'" + ": " == "{'error': ";
  }

  /** The same for a message that needs no escapes: it stands between single quotes. */
  lemma ShapedPlainFailureText(m: string)
    requires PlainFor(m, '\'')
    ensures Str(Shape(Failure(m))) == "{'error': '" + m + "'}"
  {
    ShapedFailureText(m);
    ReprStrPlain(m);
    Rewrap("{'error': ", '\'', m, "}");
    assert "{'error': " + ['\''] == "{'error': '";
    assert ['\''] + "}" == "'}";
  }

  const MoreInformation: string := "For more information check: "

  /**
   * The text httpx gives a failed status check: `<kind> '<status>' for url
   * '<url>'`, a line break, and a line pointing to more information.
   */
  function StatusMessage(kind: string, status: string, url: string, link: string): string
  {
    kind + " '" + status + "' for url '" + url + "'" + "\n" + MoreInformation + link
  }

  /** The same text as `repr` writes it inside double quotes: the break becomes `\n`. */
  function StatusShown(kind: string, status: string, url: string, link: string): string
  {
    kind + " '" + status + "' for url '" + url + "'" + "\\n" + MoreInformation + link
  }

  lemma StatusPiecesPlain()
    ensures PlainFor(" '", '"') && PlainFor("' for url '", '"') && PlainFor("'", '"')
    ensures PlainFor(MoreInformation, '"')
  {
  }

  lemma StatusMessageQuote(kind: string, status: string, url: string, link: string)
    requires PlainFor(kind, '"') && PlainFor(status, '"') && PlainFor(url, '"') && PlainFor(link, '"')
    ensures QuoteFor(StatusMessage(kind, status, url, link)) == '"'
  {
    var m := StatusMessage(kind, status, url, link);
    StatusPiecesPlain();
    PlainQuoteFree(kind, '"');
    PlainQuoteFree(status, '"');
    PlainQuoteFree(url, '"');
    PlainQuoteFree(link, '"');
    PlainQuoteFree(" '", '"');
    PlainQuoteFree("' for url '", '"');
    PlainQuoteFree("'", '"');
    PlainQuoteFree(MoreInformation, '"');
    assert m[|kind| + 1] == '\'';
  }

  lemma StatusMessageEscaped(kind: string, status: string, url: string, link: string)
    requires PlainFor(kind, '"') && PlainFor(status, '"') && PlainFor(url, '"') && PlainFor(link, '"')
    ensures Escaped(StatusMessage(kind, status, url, link), '"') == StatusShown(kind, status, url, link)
  {
    StatusPiecesPlain();
    var p1 := kind + " '";
    var p2 := p1 + status;
    var p3 := p2 + "' for url '";
    var p4 := p3 + url;
    var p5 := p4 + "'";
    var p6 := p5 + "\n";
    var p7 := p6 + MoreInformation;
    EscapedPlain(kind, '"');
    EscapedPlainAppend(kind, " '", '"');
    EscapedPlainAppend(p1, status, '"');
    EscapedPlainAppend(p2, "' for url '", '"');
    EscapedPlainAppend(p3, url, '"');
    EscapedPlainAppend(p4, "'", '"');
    EscapedConcat(p5, "\n", '"');
    EscapedCons("\n", '"');
    assert "\n"[1..] == "";
    EscapedEmpty('"');
    EscapedPlainAppend(p6, MoreInformation, '"');
    EscapedPlainAppend(p7, link, '"');
  }

  /** A shaped failure whose message `repr` puts between double quotes, with `shown` as its escaped text. */
  lemma DoubleQuotedFailureText(m: string, shown: string)
    requires QuoteFor(m) == '"' && Escaped(m, '"') == shown
    ensures Str(Shape(Failure(m))) == "{'error': \"" + shown + "\"}"
  {
    ReprStrFrom(m, '"', shown);
    ShapedFailureText(m);
    Rewrap("{'error': ", '"', shown, "}");
    assert "{'error': " + ['"'] == "{'error': \"";
    assert ['"'] + "}" == "\"}";
  }

  /**
   * Moving the quotes around a quoted text to its neighbours. This is a
   * proof step only: it regroups a concatenation so that the solver need
   * not search for the grouping; it models nothing of the source.
   */
  lemma Rewrap(before: string, quote: char, body: string, after: string)
    ensures before + ([quote] + body + [quote]) + after == (before + [quote]) + body + ([quote] + after)
  {
  }

  /**
   * A failed status check holds single quotes and a line break, so its
   * shaped result is rendered with the message between double quotes and
   * the break written as `\n`.
   */
  lemma StatusErrorText(kind: string, status: string, url: string, link: string)
    requires PlainFor(kind, '"') && PlainFor(status, '"') && PlainFor(url, '"') && PlainFor(link, '"')
    ensures Str(Shape(Failure(StatusMessage(kind, status, url, link))))
            == "{'error': \"" + StatusShown(kind, status, url, link) + "\"}"
  {
    var m := StatusMessage(kind, status, url, link);
    var shown := StatusShown(kind, status, url, link);
    StatusMessageQuote(kind, status, url, link);
    StatusMessageEscaped(kind, status, url, link);
    DoubleQuotedFailureText(m, shown);
  }

  /**
   * `mq_request(method, endpoint, data, base_url)`: the URL base is `base_url`
   * unless that is empty or absent, in which case it is the configured base.
   * Exactly one request is issued.
   */
  function MqRequest(oracle: Oracle, configured: string, baseOverride: Option<string>,
                     verb: HttpMethod, path: string, body: Payload): (r: (Json, AdminRequest))
    ensures r.1.verb == verb && r.1.path == path && r.1.body == body
    ensures baseOverride.Some? && |baseOverride.value| > 0 ==> r.1.base == baseOverride.value
    ensures !(baseOverride.Some? && |baseOverride.value| > 0) ==> r.1.base == configured
    ensures r.0 == Shape(oracle(r.1))
  {
    var base := if baseOverride.Some? && |baseOverride.value| > 0 then baseOverride.value else configured;
    var req := AdminRequest(verb, base, path, body);
    (Shape(oracle(req)), req)
  }

  /** The `str()` of the exception `response.json()` raises on an empty body. */
  const EmptyBodyError: string := "Expecting value: line 1 column 1 (char 0)"

  /**
   * `response.json()` after `raise_for_status()` in the variants that talk to
   * httpx directly: a failed exchange raises, and so does an empty body.
   */
  function ResponseJson(answer: Answer): (r: Result<Json, Exc>)
    ensures r.Success? <==> answer.Success? && answer.value.Some?
    ensures r.Success? ==> r.value == answer.value.value
    ensures answer.Failure? ==> Message(r.error) == answer.error
    ensures answer == Success(None) ==> r == Failure(DecodeError(EmptyBodyError))
  {
    match answer
    case Failure(m) => Failure(HttpError(m))
    case Success(None) => Failure(DecodeError(EmptyBodyError))
    case Success(Some(j)) => Success(j)
  }

  /** `base.replace('/v2/admin/', '/v3/messaging/')`. */
  function MessagingBase(base: string): string
  {
    Text.ReplaceAll(base, AdminVersionPath, MessagingVersionPath)
  }

  /** A base that does not mention the admin API version is used unchanged. */
  lemma MessagingBaseUnchanged(base: string)
    requires !Text.IsSubstring(AdminVersionPath, base)
    ensures MessagingBase(base) == base
  {
    Text.ReplaceAbsent(base, AdminVersionPath, MessagingVersionPath);
  }

  /**
   * A base whose only mention of the admin version is its ending is moved to
   * the messaging API of the same host.
   */
  lemma MessagingBaseOfAdminBase(host: string)
    requires forall i :: 0 <= i < |host| ==> !Text.OccursAt(host + AdminVersionPath, AdminVersionPath, i)
    ensures MessagingBase(host + AdminVersionPath) == host + MessagingVersionPath
  {
    Text.ReplaceOnlyAtEnd(host, AdminVersionPath, MessagingVersionPath);
  }

  /* ---------------------------------------------------------------------
   * MQSC requests
   * ------------------------------------------------------------------- */

  /** The JSON body of an MQSC request: `{"type": "runCommand", "parameters": {"command": c}}`. */
  function RunCommandBody(command: Json): Json
  {
    Obj([("type", JString("runCommand")), ("parameters", Obj([("command", command)]))])
  }

  /** The command a request body carries, if it is an MQSC request body. */
  function CommandOf(body: Payload): Option<Json>
  {
    if body.JsonBody? && body.json.JObject? && Lookup(body.json.fields, "type") == Some(JString("runCommand"))
       && HasKey(body.json.fields, "parameters")
       && Lookup(body.json.fields, "parameters").value.JObject?
       && HasKey(Lookup(body.json.fields, "parameters").value.fields, "command")
    then Some(Lookup(Lookup(body.json.fields, "parameters").value.fields, "command").value)
    else None
  }

  /** The body carries the command it was built from. */
  lemma RunCommandBodyRoundTrip(command: Json)
    ensures CommandOf(JsonBody(RunCommandBody(command))) == Some(command)
  {
    var body := RunCommandBody(command);
    assert body.fields[0].0 == "type" && body.fields[1].0 == "parameters";
    assert Lookup(body.fields, "type") == Some(JString("runCommand"));
    assert Lookup(body.fields, "parameters") == Some(Obj([("command", command)]));
    assert Obj([("command", command)]).fields[0].0 == "command";
  }

  function MqscPath(qmgr: Json): string
  {
    "action/qmgr/" + Str(qmgr) + "/mqsc"
  }
}
