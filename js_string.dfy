/**
 * The few ECMAScript string operations the chat client and the token handler rely on:
 * `trim`, `startsWith`, `indexOf` and `replace` with a string pattern.
 */
module JsString {

  /** The characters String.prototype.trim removes: ECMAScript WhiteSpace and LineTerminator. */
  const Whitespace: set<char> := {
    '\t', '\n', '\U{000B}', '\U{000C}', '\r', ' ', '\U{00A0}', '\U{1680}',
    '\U{2000}', '\U{2001}', '\U{2002}', '\U{2003}', '\U{2004}', '\U{2005}',
    '\U{2006}', '\U{2007}', '\U{2008}', '\U{2009}', '\U{200A}',
    '\U{2028}', '\U{2029}', '\U{202F}', '\U{205F}', '\U{3000}', '\U{FEFF}'
  }

  predicate IsWhitespace(c: char) {
    c in Whitespace
  }

  predicate AllWhitespace(s: string) {
    forall i :: 0 <= i < |s| ==> IsWhitespace(s[i])
  }

  /** Drops leading whitespace; what is left is a suffix of `s` that does not start with whitespace. */
  function TrimStart(s: string): (r: string)
    ensures |r| <= |s| && r == s[|s| - |r|..]
    ensures AllWhitespace(s[..|s| - |r|])
    ensures |r| > 0 ==> !IsWhitespace(r[0])
  {
    if |s| > 0 && IsWhitespace(s[0]) then TrimStart(s[1..]) else s
  }

  /** Drops trailing whitespace; what is left is a prefix of `s` that does not end with whitespace. */
  function TrimEnd(s: string): (r: string)
    ensures r <= s
    ensures AllWhitespace(s[|r|..])
    ensures |r| > 0 ==> !IsWhitespace(r[|r| - 1])
  {
    if |s| > 0 && IsWhitespace(s[|s| - 1]) then TrimEnd(s[..|s| - 1]) else s
  }

  /** String.prototype.trim: leading whitespace dropped, then trailing whitespace. */
  function Trim(s: string): string {
    TrimEnd(TrimStart(s))
  }

  /** Trimming keeps a middle slice of `s`: everything before and after it is whitespace. */
  lemma TrimShape(s: string) returns (k: nat)
    ensures k + |Trim(s)| <= |s| && Trim(s) == s[k..k + |Trim(s)|]
    ensures AllWhitespace(s[..k]) && AllWhitespace(s[k + |Trim(s)|..])
  {
    var t := TrimStart(s);
    k := |s| - |t|;
    TrimShapeOf(s, t, TrimEnd(t), k);
  }

  /** A trimmed string neither starts nor ends with whitespace. */
  lemma TrimEnds(s: string)
    ensures |Trim(s)| > 0 ==> !IsWhitespace(Trim(s)[0]) && !IsWhitespace(Trim(s)[|Trim(s)| - 1])
  {
    var t := TrimStart(s);
    TrimShapeOf(s, t, TrimEnd(t), |s| - |t|);
  }

  /** Trimming yields the empty string exactly when `s` is all whitespace. */
  lemma TrimEmpty(s: string)
    ensures Trim(s) == "" <==> AllWhitespace(s)
  {
    var t := TrimStart(s);
    TrimShapeOf(s, t, TrimEnd(t), |s| - |t|);
  }

  /** The facts behind TrimShape, TrimEnds and TrimEmpty, for `t` = TrimStart(s) and `r` = TrimEnd(t). */
  lemma TrimShapeOf(s: string, t: string, r: string, k: nat)
    requires |t| <= |s| && t == s[|s| - |t|..] && k == |s| - |t|
    requires AllWhitespace(s[..k])
    requires |t| > 0 ==> !IsWhitespace(t[0])
    requires r <= t && AllWhitespace(t[|r|..])
    requires |r| > 0 ==> !IsWhitespace(r[|r| - 1])
    ensures k + |r| <= |s|
    ensures r == s[k..k + |r|]
    ensures AllWhitespace(s[k + |r|..])
    ensures |r| > 0 ==> !IsWhitespace(r[0])
    ensures r == "" <==> AllWhitespace(s)
  {
    assert s[k..k + |r|] == r;
    assert s[k + |r|..] == t[|r|..];
    assert |r| > 0 ==> r[0] == t[0];
    if r == "" {
      WhitespaceConcat(s[..k], t);
      assert s == s[..k] + t;
    }
  }

  lemma WhitespaceConcat(a: string, b: string)
    requires AllWhitespace(a) && AllWhitespace(b)
    ensures AllWhitespace(a + b)
  {
    forall i | 0 <= i < |a + b| ensures IsWhitespace((a + b)[i]) {
      if i >= |a| {
        assert (a + b)[i] == b[i - |a|];
      }
    }
  }

  /** A string with no whitespace at either end is its own trim. */
  lemma {:induction false} TrimNoSurroundingWhitespace(s: string)
    requires |s| > 0 ==> !IsWhitespace(s[0]) && !IsWhitespace(s[|s| - 1])
    ensures Trim(s) == s
  {
    assert TrimStart(s) == s;
    assert TrimEnd(s) == s;
  }

  /** Trimming twice is trimming once. */
  lemma {:induction false} TrimIdempotent(s: string)
    ensures Trim(Trim(s)) == Trim(s)
  {
    TrimEnds(s);
    TrimNoSurroundingWhitespace(Trim(s));
  }

  /** String.prototype.startsWith. */
  predicate StartsWith(s: string, prefix: string) {
    prefix <= s
  }

  /** `pattern` occurs in `s` starting at index `j`. */
  predicate OccursAt(s: string, pattern: string, j: nat) {
    j + |pattern| <= |s| && s[j..j + |pattern|] == pattern
  }

  /** The first index at or after `from` where `pattern` occurs in `s`, or -1 (String.prototype.indexOf). */
  function IndexOfFrom(s: string, pattern: string, from: nat): (r: int)
    requires from <= |s|
    ensures r == -1 || from <= r <= |s| - |pattern|
    ensures r >= 0 ==> OccursAt(s, pattern, r)
    ensures r >= 0 ==> forall j :: from <= j < r ==> !OccursAt(s, pattern, j)
    ensures r < 0 ==> forall j :: from <= j ==> !OccursAt(s, pattern, j)
    decreases |s| - from
  {
    if from + |pattern| > |s| then -1
    else if OccursAt(s, pattern, from) then from
    else IndexOfFrom(s, pattern, from + 1)
  }

  function IndexOf(s: string, pattern: string): int {
    IndexOfFrom(s, pattern, 0)
  }

  /** String.prototype.replace with a string pattern: only the first occurrence is replaced. */
  function ReplaceFirst(s: string, pattern: string, replacement: string): string {
    var i := IndexOf(s, pattern);
    if i < 0 then s else s[..i] + replacement + s[i + |pattern|..]
  }

  /** When `s` starts with `pattern`, replacing its first occurrence swaps exactly that prefix. */
  lemma ReplaceFirstOfPrefix(s: string, pattern: string, replacement: string)
    requires StartsWith(s, pattern)
    ensures ReplaceFirst(s, pattern, replacement) == replacement + s[|pattern|..]
  {
    assert s[0..|pattern|] == pattern;
  }
}
