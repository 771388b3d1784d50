/**
 * The few `String.prototype` operations the request gates use, with the
 * semantics ECMAScript gives them: `startsWith`, `includes`, `split(sep)[0]`,
 * `split(',')` and `trim`. Strings are sequences of characters; the gates only
 * ever search for ASCII separators, so UTF-16 code units and Unicode scalar
 * values give the same answers here.
 */
module JsString {
  import opened Wrappers

  /** `s.startsWith(prefix)`. */
  predicate StartsWith(s: string, prefix: string) {
    |prefix| <= |s| && s[..|prefix|] == prefix
  }

  /** `sub` occurs in `s` starting at index `i`. */
  predicate OccursAt(s: string, sub: string, i: nat) {
    i + |sub| <= |s| && s[i..i + |sub|] == sub
  }

  /** `s.indexOf(sub, from)`: the first occurrence of `sub` at or after `from`. */
  function IndexOfFrom(s: string, sub: string, from: nat): (r: Option<nat>)
    requires from <= |s|
    ensures r.Some? ==> from <= r.value && OccursAt(s, sub, r.value)
    ensures r.Some? ==> forall j :: from <= j < r.value ==> !OccursAt(s, sub, j)
    ensures r.None? ==> forall j :: from <= j <= |s| ==> !OccursAt(s, sub, j)
    decreases |s| - from
  {
    if OccursAt(s, sub, from) then Some(from)
    else if from == |s| then None
    else IndexOfFrom(s, sub, from + 1)
  }

  /** `s.indexOf(sub)`, with `None` for JavaScript's `-1`. */
  function IndexOf(s: string, sub: string): Option<nat> {
    IndexOfFrom(s, sub, 0)
  }

  /** `s.includes(sub)`. */
  predicate Includes(s: string, sub: string) {
    IndexOf(s, sub).Some?
  }

  /**
   * `s.split(sep)[0]`: everything before the first occurrence of `sep`, or
   * all of `s` when `sep` does not occur.
   */
  function SplitFirst(s: string, sep: string): (r: string)
    requires |sep| > 0
    ensures |r| <= |s| && r == s[..|r|]
    ensures Includes(s, sep) <==> |r| < |s|
    ensures Includes(s, sep) ==> OccursAt(s, sep, |r|)
    ensures forall j :: 0 <= j < |r| ==> !OccursAt(s, sep, j)
  {
    match IndexOf(s, sep)
    case Some(i) => s[..i]
    case None => s
  }

  /** The pieces of one character-separated list put back together. */
  function Join(pieces: seq<string>, sep: char): string
    requires |pieces| > 0
  {
    if |pieces| == 1 then pieces[0]
    else pieces[0] + [sep] + Join(pieces[1..], sep)
  }

  /** Index of the first `c` in `s`. */
  function FirstIndexOfChar(s: string, c: char): (i: nat)
    requires c in s
    ensures i < |s| && s[i] == c
    ensures forall k :: 0 <= k < i ==> s[k] != c
  {
    if s[0] == c then 0
    else
      assert c in s[1..] by { assert s == [s[0]] + s[1..]; }
      FirstIndexOfChar(s[1..], c) + 1
  }

  /**
   * `s.split(c)` for a one-character separator: the maximal pieces of `s`
   * that hold no `c`, in order. There is always at least one piece
   * (`"".split(",")` is `[""]`), and joining the pieces gives back `s`.
   */
  function SplitOn(s: string, c: char): (r: seq<string>)
    ensures |r| > 0
    ensures forall k :: 0 <= k < |r| ==> c !in r[k]
    ensures Join(r, c) == s
    decreases |s|
  {
    if c !in s then [s]
    else
      var i := FirstIndexOfChar(s, c);
      var rest := SplitOn(s[i + 1..], c);
      assert s == s[..i] + [c] + s[i + 1..];
      assert c !in s[..i] by {
        forall k | 0 <= k < i ensures s[..i][k] != c { assert s[..i][k] == s[k]; }
      }
      [s[..i]] + rest
  }

  /** Splitting is the inverse of joining pieces that hold no separator. */
  lemma {:induction false} SplitJoin(pieces: seq<string>, c: char)
    requires |pieces| > 0
    requires forall k :: 0 <= k < |pieces| ==> c !in pieces[k]
    ensures SplitOn(Join(pieces, c), c) == pieces
    decreases |pieces|
  {
    if |pieces| == 1 {
    } else {
      var s := Join(pieces, c);
      var p := pieces[0];
      assert s == p + [c] + Join(pieces[1..], c);
      assert c in s by { assert s[|p|] == c; }
      var i := FirstIndexOfChar(s, c);
      assert forall k :: 0 <= k < |p| ==> s[k] == p[k] && s[k] != c;
      assert s[|p|] == c;
      assert i == |p|;
      assert s[..i] == p;
      assert s[i + 1..] == Join(pieces[1..], c);
      SplitJoin(pieces[1..], c);
      assert pieces == [p] + pieces[1..];
    }
  }

  /**
   * The characters `String.prototype.trim` removes: ECMAScript's WhiteSpace
   * (tab, vertical tab, form feed, the byte order mark and every space
   * separator) and its LineTerminators.
   */
  predicate IsJsWhitespace(ch: char) {
    || ch == '\t' || ch == '\n' || ch == '\U{000B}' || ch == '\U{000C}' || ch == '\r'
    || ch == ' ' || ch == '\U{00A0}' || ch == '\U{1680}'
    || ('\U{2000}' <= ch <= '\U{200A}')
    || ch == '\U{2028}' || ch == '\U{2029}' || ch == '\U{202F}' || ch == '\U{205F}'
    || ch == '\U{3000}' || ch == '\U{FEFF}'
  }

  predicate AllWhitespace(s: string) {
    forall i :: 0 <= i < |s| ==> IsJsWhitespace(s[i])
  }

  /** Number of whitespace characters at the start of `s`. */
  function LeadingWhitespace(s: string): (n: nat)
    ensures n <= |s|
    ensures forall i :: 0 <= i < n ==> IsJsWhitespace(s[i])
    ensures n < |s| ==> !IsJsWhitespace(s[n])
  {
    if s != [] && IsJsWhitespace(s[0]) then LeadingWhitespace(s[1..]) + 1
    else 0
  }

  /** Number of whitespace characters at the end of `s`. */
  function TrailingWhitespace(s: string): (n: nat)
    ensures n <= |s|
    ensures forall i :: |s| - n <= i < |s| ==> IsJsWhitespace(s[i])
    ensures n < |s| ==> !IsJsWhitespace(s[|s| - n - 1])
  {
    if s != [] && IsJsWhitespace(s[|s| - 1]) then TrailingWhitespace(s[..|s| - 1]) + 1
    else 0
  }

  /**
   * `s.trim()`: `s` without its leading and trailing whitespace. The result
   * is a contiguous part of `s`, what was cut off on either side is all
   * whitespace, and the result neither starts nor ends with whitespace.
   */
  function Trim(s: string): (r: string)
    ensures |r| <= |s|
    ensures r == "" <==> AllWhitespace(s)
    ensures r != "" ==> !IsJsWhitespace(r[0]) && !IsJsWhitespace(r[|r| - 1])
    ensures exists i :: 0 <= i <= |s| - |r| && s[i..i + |r|] == r
                        && AllWhitespace(s[..i]) && AllWhitespace(s[i + |r|..])
  {
    var a := LeadingWhitespace(s);
    if a == |s| then
      assert s[0..0] == "" && s[..0] == "" && s[0..] == s;
      ""
    else
      var b := TrailingWhitespace(s);
      assert !IsJsWhitespace(s[a]);
      assert a < |s| - b;
      var r := s[a..|s| - b];
      assert s[a..a + |r|] == r;
      assert AllWhitespace(s[..a]) by {
        forall i | 0 <= i < a ensures IsJsWhitespace(s[..a][i]) { assert s[..a][i] == s[i]; }
      }
      var tail := s[a + |r|..];
      assert AllWhitespace(tail) by {
        forall i | 0 <= i < |tail| ensures IsJsWhitespace(tail[i]) { assert tail[i] == s[|s| - b + i]; }
      }
      r
  }

  /** A string without whitespace at either end is its own trim. */
  lemma TrimOfTrimmed(s: string)
    requires s != "" ==> !IsJsWhitespace(s[0]) && !IsJsWhitespace(s[|s| - 1])
    ensures Trim(s) == s
  {
    if s != "" {
      assert LeadingWhitespace(s) == 0;
      assert TrailingWhitespace(s) == 0;
      assert s[0..|s|] == s;
    }
  }

  /** Trimming twice is trimming once. */
  lemma TrimIdempotent(s: string)
    ensures Trim(Trim(s)) == Trim(s)
  {
    TrimOfTrimmed(Trim(s));
  }

  /** Characters other than whitespace survive trimming. */
  lemma TrimKeepsNonWhitespace(s: string, c: char)
    requires c in s && !IsJsWhitespace(c)
    ensures c in Trim(s)
  {
    var r := Trim(s);
    var i :| 0 <= i <= |s| - |r| && s[i..i + |r|] == r && AllWhitespace(s[..i]) && AllWhitespace(s[i + |r|..]);
    var k :| 0 <= k < |s| && s[k] == c;
    forall m | 0 <= m < i ensures IsJsWhitespace(s[m]) { assert s[..i][m] == s[m]; }
    var tail := s[i + |r|..];
    forall m | i + |r| <= m < |s| ensures IsJsWhitespace(s[m]) { assert tail[m - i - |r|] == s[m]; }
    assert i <= k < i + |r|;
    assert r[k - i] == c;
  }
}
