/**
 * String operations the bridge relies on: Python's `str.split` and `str.count`
 * for a fixed separator, `str.replace`, decimal rendering and parsing of
 * integers, and the `CURDEPTH(<digits>)` search that the message fallback
 * performs with a regular expression.
 */
module Text {
  import opened Wrappers

  /** `needle` occurs in `hay` starting at index `i`. */
  predicate OccursAt(hay: string, needle: string, i: int)
  {
    0 <= i && i + |needle| <= |hay| && hay[i..i + |needle|] == needle
  }

  /** Python's `needle in hay` for two strings. */
  predicate IsSubstring(needle: string, hay: string)
  {
    exists i :: 0 <= i <= |hay| - |needle| && OccursAt(hay, needle, i)
  }

  /* ---------------------------------------------------------------------
   * split and count
   * ------------------------------------------------------------------- */

  /**
   * Python's `s.split(d)` for a non-empty separator: the pieces between the
   * non-overlapping occurrences of `d`, found from the left.
   */
  function SplitOn(s: string, d: string): (pieces: seq<string>)
    requires |d| > 0
    ensures |pieces| >= 1
    decreases |s|
  {
    if |s| < |d| then [s]
    else if s[..|d|] == d then [""] + SplitOn(s[|d|..], d)
    else
      var rest := SplitOn(s[1..], d);
      [[s[0]] + rest[0]] + rest[1..]
  }

  /** Python's `s.count(d)` for a non-empty separator. */
  function Count(s: string, d: string): nat
    requires |d| > 0
  {
    |SplitOn(s, d)| - 1
  }

  /**
   * A text that does not start with the separator's first character can be
   * moved into the first piece character by character: splitting `e + t`
   * where `e` never contains that character yields `e` glued to the first
   * piece of `t`.
   */
  lemma {:induction false} SplitPrefix(e: string, t: string, d: string)
    requires |d| > 0
    requires forall k :: 0 <= k < |e| ==> e[k] != d[0]
    ensures SplitOn(e + t, d) == [e + SplitOn(t, d)[0]] + SplitOn(t, d)[1..]
    decreases |e|
  {
    if |e| == 0 {
      var ps := SplitOn(t, d);
      assert e + t == t;
      assert e + ps[0] == ps[0];
      assert [ps[0]] + ps[1..] == ps;
    } else {
      var s := e + t;
      assert s[0] == e[0] != d[0];
      assert s[1..] == e[1..] + t;
      if |s| < |d| {
        // the whole text is a single piece; so is every suffix of it
        assert |e[1..] + t| < |d|;
        SplitPrefix(e[1..], t, d);
        assert SplitOn(t, d) == [t] by {
          assert |t| < |d|;
        }
      } else {
        assert s[..|d|][0] == s[0];
        assert s[..|d|] != d;
        SplitPrefix(e[1..], t, d);
        assert [s[0]] + (e[1..] + SplitOn(t, d)[0]) == e + SplitOn(t, d)[0];
      }
    }
  }

  /** Splitting `e + d + t` cuts exactly at the `d` that follows `e`. */
  lemma SplitAfterPiece(e: string, t: string, d: string)
    requires |d| > 0
    requires forall k :: 0 <= k < |e| ==> e[k] != d[0]
    ensures SplitOn(e + d + t, d) == [e] + SplitOn(t, d)
  {
    var u := d + t;
    assert (d + t)[..|d|] == d;
    assert (d + t)[|d|..] == t;
    assert SplitOn(u, d) == [""] + SplitOn(t, d);
    SplitPrefix(e, u, d);
    assert e + d + t == e + u;
    assert e + "" == e;
  }

  /* ---------------------------------------------------------------------
   * replace
   * ------------------------------------------------------------------- */

  /** Python's `s.replace(pat, rep)` for a non-empty `pat`. */
  function ReplaceAll(s: string, pat: string, rep: string): string
    requires |pat| > 0
    decreases |s|
  {
    if |s| < |pat| then s
    else if s[..|pat|] == pat then rep + ReplaceAll(s[|pat|..], pat, rep)
    else [s[0]] + ReplaceAll(s[1..], pat, rep)
  }

  /** Replacing a string that does not occur leaves the text unchanged. */
  lemma {:induction false} ReplaceAbsent(s: string, pat: string, rep: string)
    requires |pat| > 0
    requires !IsSubstring(pat, s)
    ensures ReplaceAll(s, pat, rep) == s
    decreases |s|
  {
    if |s| >= |pat| {
      assert !OccursAt(s, pat, 0);
      assert s[..|pat|] != pat;
      if !IsSubstring(pat, s[1..]) {
        ReplaceAbsent(s[1..], pat, rep);
      } else {
        var i :| 0 <= i <= |s[1..]| - |pat| && OccursAt(s[1..], pat, i);
        assert s[i + 1..i + 1 + |pat|] == s[1..][i..i + |pat|];
        assert OccursAt(s, pat, i + 1);
        assert false;
      }
    }
  }

  /**
   * When `pat` occurs in `a + pat` only at its very end, replacing swaps
   * exactly that occurrence.
   */
  lemma {:induction false} ReplaceOnlyAtEnd(a: string, pat: string, rep: string)
    requires |pat| > 0
    requires forall i :: 0 <= i < |a| ==> !OccursAt(a + pat, pat, i)
    ensures ReplaceAll(a + pat, pat, rep) == a + rep
    decreases |a|
  {
    var s := a + pat;
    if |a| == 0 {
      assert s == pat;
      assert s[..|pat|] == pat;
      assert s[|pat|..] == "";
    } else {
      assert !OccursAt(s, pat, 0);
      assert s[..|pat|] != pat;
      assert s[1..] == a[1..] + pat;
      forall i | 0 <= i < |a[1..]|
        ensures !OccursAt(a[1..] + pat, pat, i)
      {
        assert !OccursAt(s, pat, i + 1);
        assert (a[1..] + pat)[i..i + |pat|] == s[i + 1..i + 1 + |pat|];
      }
      ReplaceOnlyAtEnd(a[1..], pat, rep);
      assert [a[0]] + (a[1..] + rep) == a + rep;
    }
  }

  /* ---------------------------------------------------------------------
   * decimal integers
   * ------------------------------------------------------------------- */

  predicate IsDigit(c: char)
  {
    '0' <= c <= '9'
  }

  predicate AllDigits(s: string)
  {
    forall k :: 0 <= k < |s| ==> IsDigit(s[k])
  }

  function DigitChar(d: nat): (c: char)
    requires d < 10
    ensures IsDigit(c)
  {
    "0123456789"[d]
  }

  function DigitValue(c: char): (d: nat)
    requires IsDigit(c)
    ensures d < 10
  {
    (c as int - '0' as int) as nat
  }

  /** The digits of `n` in base ten, most significant first, no leading zero. */
  function NatToDecimal(n: nat): (s: string)
    ensures |s| >= 1 && AllDigits(s)
    ensures |s| > 1 ==> s[0] != '0'
    decreases n
  {
    if n < 10 then [DigitChar(n)]
    else NatToDecimal(n / 10) + [DigitChar(n % 10)]
  }

  /** Python's `str(n)` for an integer. */
  function IntToDecimal(n: int): string
  {
    if n < 0 then "-" + NatToDecimal(-n) else NatToDecimal(n)
  }

  /** Python's `int(s)` for a string of ASCII digits (leading zeros allowed). */
  function DecimalValue(s: string): nat
    requires AllDigits(s)
    decreases |s|
  {
    if |s| == 0 then 0
    else 10 * DecimalValue(s[..|s| - 1]) + DigitValue(s[|s| - 1])
  }

  /** Parsing the decimal rendering of a number gives the number back. */
  lemma {:induction false} DecimalRoundTrip(n: nat)
    ensures DecimalValue(NatToDecimal(n)) == n
    decreases n
  {
    var s := NatToDecimal(n);
    if n >= 10 {
      DecimalRoundTrip(n / 10);
      assert s[..|s| - 1] == NatToDecimal(n / 10);
      assert DigitValue(DigitChar(n % 10)) == n % 10 by {
        var k := n % 10;
        assert k == 0 || k == 1 || k == 2 || k == 3 || k == 4 || k == 5 || k == 6 || k == 7 || k == 8 || k == 9;
      }
    } else {
      assert DigitValue(DigitChar(n)) == n by {
        assert n == 0 || n == 1 || n == 2 || n == 3 || n == 4 || n == 5 || n == 6 || n == 7 || n == 8 || n == 9;
      }
    }
  }

  /* ---------------------------------------------------------------------
   * the CURDEPTH(<digits>) search
   * ------------------------------------------------------------------- */

  const DepthTag: string := "CURDEPTH("

  /**
   * The regular expression `CURDEPTH\((\d+)\)` matches at index `i` with a
   * group of `m` digits.
   */
  predicate RegexMatchAt(s: string, i: int, m: int)
  {
    && OccursAt(s, DepthTag, i)
    && m >= 1
    && i + |DepthTag| + m < |s|
    && AllDigits(s[i + |DepthTag|..i + |DepthTag| + m])
    && s[i + |DepthTag| + m] == ')'
  }

  /** The end of the maximal run of digits that starts at `j`. */
  function DigitRunEnd(s: string, j: nat): (k: nat)
    requires j <= |s|
    ensures j <= k <= |s|
    ensures forall p :: j <= p < k ==> IsDigit(s[p])
    ensures k == |s| || !IsDigit(s[k])
    decreases |s| - j
  {
    if j == |s| || !IsDigit(s[j]) then j else DigitRunEnd(s, j + 1)
  }

  /** A match's digit group is exactly the maximal run of digits after the tag. */
  lemma MatchIsMaximalRun(s: string, i: nat, m: int)
    ensures RegexMatchAt(s, i, m) ==> DigitRunEnd(s, i + |DepthTag|) == i + |DepthTag| + m
  {
    if RegexMatchAt(s, i, m) {
      var j := i + |DepthTag|;
      var e := j + m;
      assert forall p :: j <= p < e ==> IsDigit(s[p]) by {
        forall p | j <= p < e
          ensures IsDigit(s[p])
        {
          assert s[p] == s[j..e][p - j];
        }
      }
      assert !IsDigit(s[e]);
    }
  }

  /** The digit group of a match at index `i`, if the pattern matches there. */
  function MatchAt(s: string, i: nat): (r: Option<string>)
    ensures r.Some? <==> exists m :: RegexMatchAt(s, i, m)
    ensures r.Some? ==> (RegexMatchAt(s, i, |r.value|)
                         && r.value == s[i + |DepthTag|..i + |DepthTag| + |r.value|])
  {
    if OccursAt(s, DepthTag, i) then
      var j := i + |DepthTag|;
      var k := DigitRunEnd(s, j);
      if k > j && k < |s| && s[k] == ')' then
        assert s[j..k] == s[i + |DepthTag|..i + |DepthTag| + (k - j)];
        assert RegexMatchAt(s, i, k - j);
        Some(s[j..k])
      else
        assert forall m :: !RegexMatchAt(s, i, m) by {
          forall m
            ensures !RegexMatchAt(s, i, m)
          {
            MatchIsMaximalRun(s, i, m);
          }
        }
        None
    else
      None
  }

  /**
   * Python's `re.search`: the leftmost index at or after `from` where the
   * pattern matches, with its digit group.
   */
  function SearchFrom(s: string, from: nat): (r: Option<(nat, string)>)
    requires from <= |s|
    ensures r.Some? ==> (from <= r.value.0 <= |s|
                         && MatchAt(s, r.value.0) == Some(r.value.1)
                         && forall p :: from <= p < r.value.0 ==> MatchAt(s, p).None?)
    ensures r.None? ==> forall p :: from <= p <= |s| ==> MatchAt(s, p).None?
    decreases |s| - from
  {
    var here := MatchAt(s, from);
    if here.Some? then Some((from, here.value))
    else if from == |s| then None
    else SearchFrom(s, from + 1)
  }

  /**
   * `int(m.group(1))` for the first `CURDEPTH(<digits>)` in `s`, or `None`
   * when the pattern does not occur anywhere.
   */
  function CurDepth(s: string): (r: Option<nat>)
    ensures r.None? <==> forall p, m :: 0 <= p <= |s| ==> !RegexMatchAt(s, p, m)
    ensures r.Some? ==> exists p, m :: (0 <= p <= |s| && RegexMatchAt(s, p, m)
                                        && r.value == DecimalValue(s[p + |DepthTag|..p + |DepthTag| + m])
                                        && forall q, m' :: 0 <= q < p ==> !RegexMatchAt(s, q, m'))
  {
    match SearchFrom(s, 0)
    case None =>
      assert forall p, m :: 0 <= p <= |s| ==> !RegexMatchAt(s, p, m) by {
        forall p, m | 0 <= p <= |s|
          ensures !RegexMatchAt(s, p, m)
        {
          assert MatchAt(s, p).None?;
        }
      }
      None
    case Some((p, ds)) =>
      assert RegexMatchAt(s, p, |ds|);
      assert forall q, m' :: 0 <= q < p ==> !RegexMatchAt(s, q, m') by {
        forall q, m' | 0 <= q < p
          ensures !RegexMatchAt(s, q, m')
        {
          assert MatchAt(s, q).None?;
        }
      }
      Some(DecimalValue(ds))
  }

  /**
   * No match can start inside a text without a match of its own and run on
   * into a following text that begins with the tag's first letter.
   */
  lemma NoMatchAcrossBoundary(pre: string, t: string, p: nat, m: int)
    requires CurDepth(pre).None?
    requires |t| > 0 && t[0] == DepthTag[0]
    requires p < |pre|
    ensures !RegexMatchAt(pre + t, p, m)
  {
    var s := pre + t;
    var j := p + |DepthTag|;
    var e := j + m;
    assert s[|pre|] == 'C';
    if j > |pre| {
      if j <= |s| {
        assert s[p..j][|pre| - p] == 'C';
        assert DepthTag[|pre| - p] != 'C';
      }
      assert !OccursAt(s, DepthTag, p);
    } else if m >= 1 && e < |pre| {
      assert pre[p..j] == s[p..j];
      assert pre[j..e] == s[j..e];
      assert pre[e] == s[e];
      assert !RegexMatchAt(pre, p, m);
    } else if m >= 1 && |pre| < e < |s| {
      assert s[j..e][|pre| - j] == 'C';
      assert !AllDigits(s[j..e]);
    }
  }

  /**
   * Appending a text that begins with a match to a text without one: the
   * appended match is the leftmost.
   */
  lemma DepthOfJoin(pre: string, t: string, m: int)
    requires CurDepth(pre).None?
    requires |t| > 0 && t[0] == DepthTag[0]
    requires RegexMatchAt(pre + t, |pre|, m)
    ensures CurDepth(pre + t) == Some(DecimalValue((pre + t)[|pre| + |DepthTag|..|pre| + |DepthTag| + m]))
  {
    forall q, m' | 0 <= q < |pre|
      ensures !RegexMatchAt(pre + t, q, m')
    {
      NoMatchAcrossBoundary(pre, t, q, m');
    }
    LeftmostDepth(pre + t, |pre|, m);
  }

  /** `CurDepth` reads the digit group of the leftmost match. */
  lemma LeftmostDepth(s: string, i: nat, m: int)
    requires RegexMatchAt(s, i, m)
    requires forall q, m' :: 0 <= q < i ==> !RegexMatchAt(s, q, m')
    ensures CurDepth(s) == Some(DecimalValue(s[i + |DepthTag|..i + |DepthTag| + m]))
  {
    var r := CurDepth(s);
    var p, m0 :| 0 <= p <= |s| && RegexMatchAt(s, p, m0)
                 && r.value == DecimalValue(s[p + |DepthTag|..p + |DepthTag| + m0])
                 && forall q, m' :: 0 <= q < p ==> !RegexMatchAt(s, q, m');
    assert p == i;
    MatchIsMaximalRun(s, i, m);
    MatchIsMaximalRun(s, i, m0);
  }

  /** The tag, a run of digits and `)` form a match wherever they are placed. */
  lemma MatchAfter(pre: string, ds: string, rest: string)
    requires |ds| >= 1 && AllDigits(ds)
    ensures RegexMatchAt(pre + (DepthTag + ds + ")" + rest), |pre|, |ds|)
    ensures (pre + (DepthTag + ds + ")" + rest))[|pre| + |DepthTag|..|pre| + |DepthTag| + |ds|] == ds
  {
    var t := DepthTag + ds + ")" + rest;
    var s := pre + t;
    var i := |pre|;
    assert s[i..i + |DepthTag|] == t[..|DepthTag|] == DepthTag;
    assert s[i + |DepthTag|..i + |DepthTag| + |ds|] == t[|DepthTag|..|DepthTag| + |ds|] == ds;
    assert s[i + |DepthTag| + |ds|] == t[|DepthTag| + |ds|] == ')';
  }

  /**
   * A text whose first `CURDEPTH(<n>)` follows a part without any match
   * reports the depth `n`.
   */
  lemma DepthAfter(pre: string, n: nat, rest: string)
    requires CurDepth(pre).None?
    ensures CurDepth(pre + (DepthTag + NatToDecimal(n) + ")" + rest)) == Some(n)
  {
    var ds := NatToDecimal(n);
    var t := DepthTag + ds + ")" + rest;
    var s := pre + t;
    MatchAfter(pre, ds, rest);
    DepthOfJoin(pre, t, |ds|);
    DecimalRoundTrip(n);
  }
}
