/**
 * The response formatter: every listing the bridge returns is a leading
 * `"\n---\n"` followed by one line per entry, each closed by the same
 * delimiter. The entry lines are computed from the decoded admin payload
 * with Python's semantics, so a malformed payload yields the exception the
 * source would raise; how that exception is reported is up to each server
 * variant.
 */
module Formatter {
  import opened Wrappers
  import opened Values
  import Text

  const Delim: string := "\n---\n"

  /** The delimited text block holding `lines` in order. */
  function Listing(lines: seq<string>): string
  {
    Delim + Entries(lines)
  }

  function Entries(lines: seq<string>): string
    decreases |lines|
  {
    if |lines| == 0 then "" else lines[0] + Delim + Entries(lines[1..])
  }

  predicate SingleLine(line: string)
  {
    forall k :: 0 <= k < |line| ==> line[k] != '\n'
  }

  /**
   * Reading a listing back: splitting it on the delimiter gives an empty
   * piece, then the entry lines in order, then an empty piece.
   */
  lemma {:induction false} EntriesSplit(lines: seq<string>)
    requires forall i :: 0 <= i < |lines| ==> SingleLine(lines[i])
    ensures Text.SplitOn(Entries(lines), Delim) == lines + [""]
    decreases |lines|
  {
    if |lines| == 0 {
      assert Text.SplitOn("", Delim) == [""];
    } else {
      assert SingleLine(lines[0]);
      Text.SplitAfterPiece(lines[0], Entries(lines[1..]), Delim);
      EntriesSplit(lines[1..]);
      assert [lines[0]] + (lines[1..] + [""]) == lines + [""];
    }
  }

  /** The round trip of a listing: one piece per entry, in order, between two empty pieces. */
  lemma ListingSplit(lines: seq<string>)
    requires forall i :: 0 <= i < |lines| ==> SingleLine(lines[i])
    ensures Text.SplitOn(Listing(lines), Delim) == [""] + lines + [""]
  {
    EntriesSplit(lines);
    Text.SplitAfterPiece("", Entries(lines), Delim);
    assert "" + Delim + Entries(lines) == Listing(lines);
  }

  /** A listing holds one delimiter per entry plus the leading one. */
  lemma ListingDelimiterCount(lines: seq<string>)
    requires forall i :: 0 <= i < |lines| ==> SingleLine(lines[i])
    ensures Text.Count(Listing(lines), Delim) == |lines| + 1
  {
    ListingSplit(lines);
  }

  /**
   * Applies `line` to each item in order, stopping at the first exception,
   * as a `for` loop that appends to the output does.
   */
  function MapLines(items: seq<Json>, line: Json -> Result<string, Exc>): (r: Result<seq<string>, Exc>)
    ensures r.Success? <==> forall i :: 0 <= i < |items| ==> line(items[i]).Success?
    ensures r.Success? ==> |r.value| == |items|
                           && forall i :: 0 <= i < |items| ==> line(items[i]) == Success(r.value[i])
    ensures r.Failure? ==> exists i :: 0 <= i < |items| && line(items[i]) == Failure(r.error)
                                       && forall j :: 0 <= j < i ==> line(items[j]).Success?
    decreases |items|
  {
    if |items| == 0 then Success([])
    else
      match line(items[0])
      case Failure(e) => Failure(e)
      case Success(l) =>
        var rest := MapLines(items[1..], line);
        if rest.Failure? then
          var i :| 0 <= i < |items[1..]| && line(items[1..][i]) == Failure(rest.error)
                   && forall j :: 0 <= j < i ==> line(items[1..][j]).Success?;
          assert line(items[i + 1]) == Failure(rest.error);
          assert forall j :: 0 <= j < i + 1 ==> line(items[j]).Success? by {
            forall j | 0 <= j < i + 1
              ensures line(items[j]).Success?
            {
              if j > 0 {
                assert items[j] == items[1..][j - 1];
              }
            }
          }
          Failure(rest.error)
        else
          assert forall i :: 1 <= i < |items| ==> items[i] == items[1..][i - 1];
          Success([l] + rest.value)
  }

  /* ---------------------------------------------------------------------
   * entry lines
   * ------------------------------------------------------------------- */

  /** `f"name = {qmgr['name']}, running = {qmgr['state']}"`. */
  function QmgrLine(qmgr: Json): (r: Result<string, Exc>)
    ensures r.Success? <==> qmgr.JObject? && HasKey(qmgr.fields, "name") && HasKey(qmgr.fields, "state")
    ensures r.Success? ==> r.value == "name = " + Str(Lookup(qmgr.fields, "name").value)
                                      + ", running = " + Str(Lookup(qmgr.fields, "state").value)
  {
    var name :- Subscript(qmgr, "name");
    var state :- Subscript(qmgr, "state");
    Success("name = " + Str(name) + ", running = " + Str(state))
  }

  /** `"name = " + x['name'] + ", running = " + x['state']`: both must be strings. */
  function PrettyQmgrLine(x: Json): (r: Result<string, Exc>)
    ensures r.Success? <==> x.JObject? && HasKey(x.fields, "name") && HasKey(x.fields, "state")
                            && Lookup(x.fields, "name").value.JString?
                            && Lookup(x.fields, "state").value.JString?
    ensures r.Success? ==> r.value == "name = " + Lookup(x.fields, "name").value.s
                                      + ", running = " + Lookup(x.fields, "state").value.s
  {
    var name :- Subscript(x, "name");
    var head :- PrependStr("name = ", name);
    var state :- Subscript(x, "state");
    PrependStr(head + ", running = ", state)
  }

  /** `cmd['text'][0]`, which must be a string since the delimiter is appended to it. */
  function CommandLine(cmd: Json): (r: Result<string, Exc>)
    ensures r.Success? <==> cmd.JObject? && HasKey(cmd.fields, "text")
                            && First(Lookup(cmd.fields, "text").value).Success?
                            && First(Lookup(cmd.fields, "text").value).value.JString?
    ensures r.Success? ==> JString(r.value) == First(Lookup(cmd.fields, "text").value).value
  {
    var text :- Subscript(cmd, "text");
    var first :- First(text);
    var _ :- AppendStr(first, Delim);
    Success(first.s)
  }

  /** `f"Queue: {queue['name']}, Type: {queue.get('type', 'N/A')}"`. */
  function QueueLine(queue: Json): (r: Result<string, Exc>)
    ensures r.Success? <==> queue.JObject? && HasKey(queue.fields, "name")
    ensures r.Success? ==> r.value == "Queue: " + Str(Lookup(queue.fields, "name").value)
                                      + ", Type: " + Str(Lookup(queue.fields, "type").GetOr(JString("N/A")))
  {
    var name :- Subscript(queue, "name");
    match Get(queue, "type", JString("N/A"))
    case Success(kind) => Success("Queue: " + Str(name) + ", Type: " + Str(kind))
    case Failure(e) => Failure(e)
  }

  /** The line `dspmq` writes for a queue manager record. */
  function QmgrText(x: Json): string
    requires x.JObject? && HasKey(x.fields, "name") && HasKey(x.fields, "state")
  {
    "name = " + Str(Lookup(x.fields, "name").value) + ", running = " + Str(Lookup(x.fields, "state").value)
  }

  /** A response entry whose `text` is a non-empty array starting with a string. */
  predicate TextEntry(x: Json)
  {
    && x.JObject? && HasKey(x.fields, "text")
    && Lookup(x.fields, "text").value.JArray?
    && |Lookup(x.fields, "text").value.items| > 0
    && Lookup(x.fields, "text").value.items[0].JString?
  }

  /** The line the REST `list_queues` writes for a queue record. */
  function QueueText(x: Json): string
    requires x.JObject? && HasKey(x.fields, "name")
  {
    "Queue: " + Str(Lookup(x.fields, "name").value) + ", Type: " + Str(Lookup(x.fields, "type").GetOr(JString("N/A")))
  }

  /* ---------------------------------------------------------------------
   * the listing loop of the variants that decode the reply themselves
   * ------------------------------------------------------------------- */

  /**
   * `data[key]` iterated, one delimited line per entry, after the leading
   * delimiter. A missing key raises `KeyError`, and so does every other
   * Python error the loop meets; there is no `"error"` test.
   */
  function Keyed(data: Json, key: string, line: Json -> Result<string, Exc>): (r: Result<string, Exc>)
    ensures r.Success? ==> data.JObject? && HasKey(data.fields, key)
                           && |r.value| >= |Delim| && r.value[..|Delim|] == Delim
    ensures data.JObject? && !HasKey(data.fields, key) ==> r == Failure(KeyError(ReprStr(key)))
    ensures data.JObject? && HasKey(data.fields, key) && Iterate(Lookup(data.fields, key).value).Failure? ==>
              r.Failure? && r.error.TypeError?
    ensures data.JObject? && HasKey(data.fields, key) && Lookup(data.fields, key).value.JArray? ==>
              (var xs := Lookup(data.fields, key).value.items;
               (r.Success? <==> forall i :: 0 <= i < |xs| ==> line(xs[i]).Success?)
               && (r.Success? ==> exists lines: seq<string> ::
                                    && |lines| == |xs|
                                    && (forall i :: 0 <= i < |xs| ==> line(xs[i]) == Success(lines[i]))
                                    && r.value == Listing(lines)))
  {
    match Subscript(data, key)
    case Failure(e) => Failure(e)
    case Success(entries) =>
      match Iterate(entries)
      case Failure(e) => Failure(e)
      case Success(items) =>
        assert entries.JArray? ==> items == entries.items;
        match MapLines(items, line)
        case Failure(e) =>
          assert data.JObject? && HasKey(data.fields, key) && Lookup(data.fields, key).value.JArray? ==>
                   var xs := Lookup(data.fields, key).value.items;
                   !(forall i :: 0 <= i < |xs| ==> line(xs[i]).Success?);
          Failure(e)
        case Success(lines) =>
          assert Listing(lines)[..|Delim|] == Delim;
          Success(Listing(lines))
  }

  /** A keyed listing whose entries all render lines in order is those lines, delimited. */
  lemma KeyedLines(data: Json, key: string, line: Json -> Result<string, Exc>, xs: seq<Json>, expected: seq<string>)
    requires data.JObject? && Lookup(data.fields, key) == Some(JArray(xs))
    requires |expected| == |xs|
    requires forall i :: 0 <= i < |xs| ==> line(xs[i]) == Success(expected[i])
    ensures Keyed(data, key, line) == Success(Listing(expected))
  {
    var r := Keyed(data, key, line);
    assert r.Success?;
    var lines: seq<string> :| |lines| == |xs| && (forall i :: 0 <= i < |xs| ==> line(xs[i]) == Success(lines[i]))
                              && r.value == Listing(lines);
    assert lines == expected;
  }
}
