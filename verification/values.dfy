/**
 * JSON values as the bridge's Python code sees them after `response.json()`
 * or FastAPI's request parsing, together with the handful of Python
 * operations the handlers apply to them: `key in v`, `v[key]`, `v[0]`,
 * `v.get(key, default)`, iteration, `v + "..."` and f-string rendering.
 * Each operation that Python can raise on returns a `Result` carrying the
 * exception it would raise.
 */
module Values {
  import opened Wrappers
  import Text

  /** A JSON value; an object keeps its members in insertion order like a dict. */
  datatype Json =
    | JNull
    | JBool(b: bool)
    | JInt(i: int)
    | JString(s: string)
    | JArray(items: seq<Json>)
    | JObject(fields: seq<(string, Json)>)

  /** The Python exceptions the modelled code can raise, with `str(e)` inside. */
  datatype Exc =
    | KeyError(shown: string)
    | IndexError(message: string)
    | TypeError(message: string)
    | AttributeError(message: string)
    | ValueError(message: string)
    | DecodeError(message: string)
    | HttpError(message: string)

  /** `str(e)`: a `KeyError` shows the repr of its key, the others their message. */
  function Message(e: Exc): string
  {
    match e
    case KeyError(k) => k
    case IndexError(m) => m
    case TypeError(m) => m
    case AttributeError(m) => m
    case ValueError(m) => m
    case DecodeError(m) => m
    case HttpError(m) => m
  }

  /** `type(v).__name__` of the Python value a JSON value decodes to. */
  function TypeName(j: Json): string
  {
    match j
    case JNull => "NoneType"
    case JBool(_) => "bool"
    case JInt(_) => "int"
    case JString(_) => "str"
    case JArray(_) => "list"
    case JObject(_) => "dict"
  }

  /** An object built from literal members, as a dict display in the source. */
  function Obj(fields: seq<(string, Json)>): Json
  {
    JObject(fields)
  }

  /* ---------------------------------------------------------------------
   * dict lookup
   * ------------------------------------------------------------------- */

  predicate HasKey(fields: seq<(string, Json)>, key: string)
  {
    exists k :: 0 <= k < |fields| && fields[k].0 == key
  }

  /**
   * The value a dict holds for `key`; when a decoded object repeats a key the
   * last member wins, as with `json.loads`.
   */
  function Lookup(fields: seq<(string, Json)>, key: string): (r: Option<Json>)
    ensures r.None? <==> !HasKey(fields, key)
    ensures r.Some? ==> exists k :: 0 <= k < |fields| && fields[k] == (key, r.value)
    decreases |fields|
  {
    if |fields| == 0 then None
    else
      var later := Lookup(fields[1..], key);
      if later.Some? then
        assert exists k :: 0 <= k < |fields[1..]| && fields[1..][k] == (key, later.value);
        var k :| 0 <= k < |fields[1..]| && fields[1..][k] == (key, later.value);
        assert fields[k + 1] == (key, later.value);
        later
      else if fields[0].0 == key then Some(fields[0].1)
      else
        assert forall k :: 1 <= k < |fields| ==> fields[k].0 != key by {
          forall k | 1 <= k < |fields|
            ensures fields[k].0 != key
          {
            assert fields[1..][k - 1] == fields[k];
          }
        }
        None
  }

  /**
   * A repeated key: the member found is the last one holding the key, and
   * every earlier member under that key is overridden.
   */
  lemma {:induction false} LookupLastWins(fields: seq<(string, Json)>, key: string, k: nat)
    requires k < |fields| && fields[k].0 == key && !HasKey(fields[k + 1..], key)
    ensures Lookup(fields, key) == Some(fields[k].1)
    decreases k
  {
    if k == 0 {
      assert !HasKey(fields[1..], key);
    } else {
      assert fields[1..][k - 1 + 1..] == fields[k + 1..];
      LookupLastWins(fields[1..], key, k - 1);
    }
  }

  /* ---------------------------------------------------------------------
   * Python operations on decoded values
   * ------------------------------------------------------------------- */

  /** `needle in v` for a string `needle`. */
  function Contains(needle: string, v: Json): (r: Result<bool, Exc>)
    ensures v.JObject? ==> r == Success(HasKey(v.fields, needle))
    ensures v.JArray? ==> r == Success(JString(needle) in v.items)
    ensures v.JString? ==> r == Success(Text.IsSubstring(needle, v.s))
    ensures (v.JNull? || v.JBool? || v.JInt?) <==> r.Failure?
    ensures r.Failure? ==> r.error.TypeError?
  {
    match v
    case JObject(fs) => Success(HasKey(fs, needle))
    case JArray(xs) => Success(JString(needle) in xs)
    case JString(s) => Success(Text.IsSubstring(needle, s))
    case _ => Failure(TypeError("argument of type '" + TypeName(v) + "' is not iterable"))
  }

  /** `v[key]` for a string `key`. */
  function Subscript(v: Json, key: string): (r: Result<Json, Exc>)
    ensures r.Success? <==> v.JObject? && HasKey(v.fields, key)
    ensures r.Success? ==> Lookup(v.fields, key) == Some(r.value)
    ensures v.JObject? && !HasKey(v.fields, key) ==> r == Failure(KeyError(Repr(JString(key))))
  {
    match v
    case JObject(fs) =>
      (match Lookup(fs, key)
       case Some(x) => Success(x)
       case None => Failure(KeyError(Repr(JString(key)))))
    case JArray(_) => Failure(TypeError("list indices must be integers or slices, not str"))
    case JString(_) => Failure(TypeError("string indices must be integers, not 'str'"))
    case _ => Failure(TypeError("'" + TypeName(v) + "' object is not subscriptable"))
  }

  /** `v[0]`. */
  function First(v: Json): (r: Result<Json, Exc>)
    ensures v.JArray? && |v.items| > 0 ==> r == Success(v.items[0])
    ensures v.JString? && |v.s| > 0 ==> r == Success(JString(v.s[..1]))
    ensures r.Success? ==> (v.JArray? || v.JString?)
    ensures (v.JArray? && |v.items| == 0) || (v.JString? && |v.s| == 0) ==> r.Failure? && r.error.IndexError?
    ensures v.JObject? ==> r == Failure(KeyError("0"))
    ensures (v.JNull? || v.JBool? || v.JInt?) ==> r.Failure? && r.error.TypeError?
  {
    match v
    case JArray(xs) =>
      if |xs| > 0 then Success(xs[0]) else Failure(IndexError("list index out of range"))
    case JString(s) =>
      if |s| > 0 then Success(JString(s[..1])) else Failure(IndexError("string index out of range"))
    case JObject(_) => Failure(KeyError("0"))
    case _ => Failure(TypeError("'" + TypeName(v) + "' object is not subscriptable"))
  }

  /** `v.get(key, default)`; only a dict has a `get` method. */
  function Get(v: Json, key: string, default: Json): (r: Result<Json, Exc>)
    ensures r.Success? <==> v.JObject?
    ensures v.JObject? ==> r.value == Lookup(v.fields, key).GetOr(default)
  {
    match v
    case JObject(fs) => Success(Lookup(fs, key).GetOr(default))
    case _ => Failure(AttributeError("'" + TypeName(v) + "' object has no attribute 'get'"))
  }

  /** The values a `for` loop over `v` visits: list items, dict keys or characters. */
  function Iterate(v: Json): (r: Result<seq<Json>, Exc>)
    ensures v.JArray? ==> r == Success(v.items)
    ensures r.Success? <==> (v.JArray? || v.JObject? || v.JString?)
    ensures v.JObject? ==> r.Success? && |r.value| == |v.fields|
                           && forall k :: 0 <= k < |v.fields| ==> r.value[k] == JString(v.fields[k].0)
    ensures v.JString? ==> r.Success? && |r.value| == |v.s|
                           && forall k :: 0 <= k < |v.s| ==> r.value[k] == JString([v.s[k]])
    ensures r.Failure? ==> r.error.TypeError?
  {
    match v
    case JArray(xs) => Success(xs)
    case JObject(fs) => Success(seq(|fs|, k requires 0 <= k < |fs| => JString(fs[k].0)))
    case JString(s) => Success(seq(|s|, k requires 0 <= k < |s| => JString([s[k]])))
    case _ => Failure(TypeError("'" + TypeName(v) + "' object is not iterable"))
  }

  /** `v + suffix` for a string `suffix`: only a string can be extended. */
  function AppendStr(v: Json, suffix: string): (r: Result<string, Exc>)
    ensures r.Success? <==> v.JString?
    ensures v.JString? ==> r.value == v.s + suffix
  {
    match v
    case JString(s) => Success(s + suffix)
    case JArray(_) => Failure(TypeError("can only concatenate list (not \"str\") to list"))
    case _ => Failure(TypeError("unsupported operand type(s) for +: '" + TypeName(v) + "' and 'str'"))
  }

  /** `prefix + v` for a string `prefix`: only a string can be appended. */
  function PrependStr(prefix: string, v: Json): (r: Result<string, Exc>)
    ensures r.Success? <==> v.JString?
    ensures v.JString? ==> r.value == prefix + v.s
  {
    match v
    case JString(s) => Success(prefix + s)
    case _ => Failure(TypeError("can only concatenate str (not \"" + TypeName(v) + "\") to str"))
  }

  /** `v in some_dict` requires `v` to be hashable: lists and dicts are not. */
  function CheckHashable(v: Json): (r: Result<Json, Exc>)
    ensures r.Success? <==> !(v.JArray? || v.JObject?)
    ensures r.Success? ==> r.value == v
    ensures r.Failure? ==> r.error.TypeError?
  {
    if v.JArray? || v.JObject? then Failure(TypeError("unhashable type: '" + TypeName(v) + "'"))
    else Success(v)
  }

  /* ---------------------------------------------------------------------
   * rendering
   * ------------------------------------------------------------------- */

  function Join(sep: string, parts: seq<string>): string
    decreases |parts|
  {
    if |parts| == 0 then ""
    else if |parts| == 1 then parts[0]
    else parts[0] + sep + Join(sep, parts[1..])
  }

  /**
   * The quote character `repr` puts around a string: double quotes when the
   * text holds a single quote and no double quote, single quotes otherwise.
   */
  function QuoteFor(s: string): char
  {
    if '\'' in s && '"' !in s then '"' else '\''
  }

  /**
   * A character `repr` escapes as `\xhh`: the ASCII control characters other
   * than tab, newline and carriage return, DEL, and the non-printable part of
   * Latin-1 (U+0080 to U+00A0 and the soft hyphen).
   */
  predicate HexEscaped(c: char)
  {
    c as int < 32 || 127 <= c as int <= 160 || c as int == 173
  }

  function HexDigit(d: nat): char
    requires d < 16
  {
    if d < 10 then ('0' as int + d) as char else ('a' as int + d - 10) as char
  }

  function HexValue(c: char): Option<nat>
  {
    if '0' <= c <= '9' then Some(c as int - '0' as int)
    else if 'a' <= c <= 'f' then Some(c as int - 'a' as int + 10)
    else None
  }

  /** How `repr` writes one character of a string quoted with `quote`. */
  function EscapeChar(c: char, quote: char): string
  {
    if c == quote || c == '\\' then ['\\', c]
    else if c == '\t' then "\\t"
    else if c == '\n' then "\\n"
    else if c == '\r' then "\\r"
    else if HexEscaped(c) then ['\\', 'x', HexDigit(c as int / 16), HexDigit(c as int % 16)]
    else [c]
  }

  function Concat(parts: seq<string>): string
    decreases |parts|
  {
    if |parts| == 0 then "" else parts[0] + Concat(parts[1..])
  }

  /** The text between the quotes of `repr(s)`: each character as `EscapeChar` writes it. */
  function Escaped(s: string, quote: char): string
  {
    Concat(seq(|s|, i requires 0 <= i < |s| => EscapeChar(s[i], quote)))
  }

  lemma EscapedEmpty(quote: char)
    ensures Escaped("", quote) == ""
  {
  }

  lemma EscapedCons(s: string, quote: char)
    requires |s| > 0
    ensures Escaped(s, quote) == EscapeChar(s[0], quote) + Escaped(s[1..], quote)
  {
    var parts := seq(|s|, i requires 0 <= i < |s| => EscapeChar(s[i], quote));
    assert parts[1..] == seq(|s[1..]|, i requires 0 <= i < |s[1..]| => EscapeChar(s[1..][i], quote));
  }

  /** `repr(s)` of a string. */
  function ReprStr(s: string): (r: string)
    ensures |r| >= 2 && r[0] == QuoteFor(s) && r[|r| - 1] == QuoteFor(s)
    ensures r[1..|r| - 1] == Escaped(s, QuoteFor(s))
  {
    var q := QuoteFor(s);
    var r := [q] + Escaped(s, q) + [q];
    assert r[1..|r| - 1] == Escaped(s, q);
    r
  }

  /**
   * Reads the text between the quotes of a string literal back: a backslash
   * starts an escape, and a bare quote or line break cannot occur.
   */
  function Unescape(t: string, quote: char): Option<string>
    decreases |t|
  {
    if |t| == 0 then Some("")
    else if t[0] == quote || t[0] == '\n' then None
    else if t[0] != '\\' then
      var rest :- Unescape(t[1..], quote);
      Some([t[0]] + rest)
    else if |t| < 2 then None
    else if t[1] == '\\' || t[1] == quote then
      var rest :- Unescape(t[2..], quote);
      Some([t[1]] + rest)
    else if t[1] == 't' || t[1] == 'n' || t[1] == 'r' then
      var rest :- Unescape(t[2..], quote);
      Some([if t[1] == 't' then '\t' else if t[1] == 'n' then '\n' else '\r'] + rest)
    else if t[1] == 'x' && |t| >= 4 && HexValue(t[2]).Some? && HexValue(t[3]).Some? then
      var hi := HexValue(t[2]).value;
      var lo := HexValue(t[3]).value;
      var rest :- Unescape(t[4..], quote);
      Some([(16 * hi + lo) as char] + rest)
    else None
  }

  lemma HexDigitValue(d: nat)
    requires d < 16
    ensures HexValue(HexDigit(d)) == Some(d)
  {
  }

  /** An escaped character is read back as itself, whatever follows it. */
  lemma EscapeCharRead(c: char, quote: char, rest: string)
    requires quote == '\'' || quote == '"'
    ensures Unescape(EscapeChar(c, quote) + rest, quote)
            == (if Unescape(rest, quote).Some? then Some([c] + Unescape(rest, quote).value) else None)
  {
    var t := EscapeChar(c, quote) + rest;
    if c == quote || c == '\\' || c == '\t' || c == '\n' || c == '\r' {
      assert t[2..] == rest;
    } else if HexEscaped(c) {
      HexDigitValue(c as int / 16);
      HexDigitValue(c as int % 16);
      assert t[4..] == rest;
      assert (16 * (c as int / 16) + c as int % 16) as char == c;
    } else {
      assert t[1..] == rest;
    }
  }

  /** The escaped text of a string reads back as that string. */
  lemma {:induction false} EscapedRoundTrip(s: string, quote: char)
    requires quote == '\'' || quote == '"'
    ensures Unescape(Escaped(s, quote), quote) == Some(s)
    decreases |s|
  {
    if |s| > 0 {
      EscapedCons(s, quote);
      EscapedRoundTrip(s[1..], quote);
      EscapeCharRead(s[0], quote, Escaped(s[1..], quote));
      assert [s[0]] + s[1..] == s;
    }
  }

  /**
   * `repr(s)` is a quoted literal whose body reads back as `s`: no bare
   * quote and no line break occurs inside it, and nothing is lost.
   */
  lemma ReprStrRoundTrip(s: string)
    ensures var r := ReprStr(s);
            Unescape(r[1..|r| - 1], r[0]) == Some(s)
  {
    EscapedRoundTrip(s, QuoteFor(s));
  }

  /** A character `repr` writes as it is inside a literal quoted with `quote`. */
  predicate PlainChar(c: char, quote: char)
  {
    c != quote && c != '\\' && c != '\t' && c != '\n' && c != '\r' && !HexEscaped(c)
  }

  predicate PlainFor(s: string, quote: char)
  {
    forall i :: 0 <= i < |s| ==> PlainChar(s[i], quote)
  }

  lemma {:induction false} EscapedPlain(s: string, quote: char)
    requires PlainFor(s, quote)
    ensures Escaped(s, quote) == s
    decreases |s|
  {
    if |s| > 0 {
      EscapedCons(s, quote);
      assert PlainChar(s[0], quote);
      assert PlainFor(s[1..], quote) by {
        forall i | 0 <= i < |s[1..]|
          ensures PlainChar(s[1..][i], quote)
        {
          assert s[1..][i] == s[i + 1];
        }
      }
      EscapedPlain(s[1..], quote);
      assert [s[0]] + s[1..] == s;
    }
  }

  lemma {:induction false} EscapedConcat(a: string, b: string, quote: char)
    ensures Escaped(a + b, quote) == Escaped(a, quote) + Escaped(b, quote)
    decreases |a|
  {
    if |a| > 0 {
      assert (a + b)[1..] == a[1..] + b;
      assert (a + b)[0] == a[0];
      EscapedCons(a + b, quote);
      EscapedCons(a, quote);
      EscapedConcat(a[1..], b, quote);
    } else {
      assert a + b == b;
    }
  }

  lemma PlainQuoteFree(s: string, quote: char)
    requires PlainFor(s, quote)
    ensures quote !in s
  {
  }

  /** Appending plain characters appends them unchanged to the escaped text. */
  lemma EscapedPlainAppend(a: string, b: string, quote: char)
    requires PlainFor(b, quote)
    ensures Escaped(a + b, quote) == Escaped(a, quote) + b
  {
    EscapedConcat(a, b, quote);
    EscapedPlain(b, quote);
  }

  /** A string of plain printable characters without quote or backslash is shown between single quotes. */
  lemma ReprStrPlain(s: string)
    requires PlainFor(s, '\'')
    ensures ReprStr(s) == "'" + s + "'"
  {
    PlainQuoteFree(s, '\'');
    EscapedPlain(s, '\'');
  }

  /** `repr(s)` from its quote character and its escaped text. */
  lemma ReprStrFrom(s: string, quote: char, body: string)
    requires QuoteFor(s) == quote && Escaped(s, quote) == body
    ensures ReprStr(s) == [quote] + body + [quote]
  {
  }

  /** The same, for a caller that knows the quoted text it expects. */
  lemma ReprStrOfPlain(s: string, quoted: string)
    requires quoted == "'" + s + "'"
    requires PlainFor(s, '\'')
    ensures ReprStr(s) == quoted
  {
    ReprStrPlain(s);
  }

  /**
   * `repr(v)`: strings as `ReprStr` writes them, containers with Python's
   * brackets and separators.
   */
  function Repr(v: Json): string
    decreases v
  {
    match v
    case JNull => "None"
    case JBool(b) => if b then "True" else "False"
    case JInt(n) => Text.IntToDecimal(n)
    case JString(s) => ReprStr(s)
    case JArray(xs) =>
      "[" + Join(", ", seq(|xs|, k requires 0 <= k < |xs| => Repr(xs[k]))) + "]"
    case JObject(fs) =>
      "{" + Join(", ", seq(|fs|, k requires 0 <= k < |fs| =>
                            assert fs[k] in fs;
                            ReprStr(fs[k].0) + ": " + Repr(fs[k].1))) + "}"
  }

  /** The rendering of a one-member dict: its key's `repr`, a colon and its value's `repr`, in braces. */
  lemma ReprOneMember(key: string, value: Json)
    ensures Repr(Obj([(key, value)])) == "{" + ReprStr(key) + ": " + Repr(value) + "}"
  {
    var fs := [(key, value)];
    var parts := seq(|fs|, k requires 0 <= k < |fs| => ReprStr(fs[k].0) + ": " + Repr(fs[k].1));
    assert |parts| == 1 && parts[0] == ReprStr(key) + ": " + Repr(value);
    assert Join(", ", parts) == parts[0];
  }

  /** The rendering of a one-member dict holding a string, such as `{'error': 'boom'}`. */
  lemma ReprOneStringMember(key: string, value: string)
    ensures Repr(Obj([(key, JString(value))])) == "{" + ReprStr(key) + ": " + ReprStr(value) + "}"
    ensures PlainFor(key, '\'') && PlainFor(value, '\'') ==>
              Repr(Obj([(key, JString(value))])) == "{'" + key + "': '" + value + "'}"
  {
    ReprOneMember(key, JString(value));
    if PlainFor(key, '\'') && PlainFor(value, '\'') {
      ReprStrPlain(key);
      ReprStrPlain(value);
    }
  }

  /** `str(v)` as an f-string renders it: a string is shown as itself. */
  function Str(v: Json): (r: string)
    ensures v.JString? ==> r == v.s
    ensures v.JNull? ==> r == "None"
  {
    if v.JString? then v.s else Repr(v)
  }
}
