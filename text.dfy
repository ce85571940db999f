/** String helpers standing in for the JavaScript string methods the core uses:
    `trim`, `toLowerCase`, `includes`, `startsWith`, `substring` and `split(...).pop()`. */
module Text {
  import opened Options

  /** ECMAScript WhiteSpace and LineTerminator code points: what `String.prototype.trim` strips. */
  predicate IsSpace(c: char) {
    || c == ' ' || ('\t' <= c <= '\r')          // space, tab, LF, VT, FF, CR
    || c == '\U{00A0}' || c == '\U{1680}' || ('\U{2000}' <= c <= '\U{200A}')
    || c == '\U{2028}' || c == '\U{2029}' || c == '\U{202F}' || c == '\U{205F}'
    || c == '\U{3000}' || c == '\U{FEFF}'
  }

  function TrimStart(s: string): (r: string)
    ensures |r| <= |s| && r == s[|s| - |r|..]
    ensures r == [] || !IsSpace(r[0])
    ensures forall i :: 0 <= i < |s| - |r| ==> IsSpace(s[i])
  {
    if s != [] && IsSpace(s[0]) then
      var r := TrimStart(s[1..]);
      assert s[1..][|s| - 1 - |r|..] == s[|s| - |r|..];
      assert forall i :: 1 <= i < |s| ==> s[1..][i - 1] == s[i];
      r
    else s
  }

  function TrimEnd(s: string): (r: string)
    ensures |r| <= |s| && r == s[..|r|]
    ensures r == [] || !IsSpace(r[|r| - 1])
    ensures forall i :: |r| <= i < |s| ==> IsSpace(s[i])
  {
    if s != [] && IsSpace(s[|s| - 1]) then
      var r := TrimEnd(s[..|s| - 1]);
      assert s[..|s| - 1][..|r|] == s[..|r|];
      assert forall i :: 0 <= i < |s| - 1 ==> s[..|s| - 1][i] == s[i];
      r
    else s
  }

  /** `s.trim()` */
  function Trim(s: string): string {
    TrimEnd(TrimStart(s))
  }

  /** `!s.trim()`: every character is white space, so the trimmed text is the empty (falsy) string. */
  predicate IsBlank(s: string) {
    forall i :: 0 <= i < |s| ==> IsSpace(s[i])
  }

  /** A string is blank exactly when trimming leaves nothing. */
  lemma BlankIffTrimmedEmpty(s: string)
    ensures IsBlank(s) <==> Trim(s) == []
  {
  }

  predicate IsPrefix(p: string, s: string) {
    |p| <= |s| && s[..|p|] == p
  }

  /** `s.startsWith(p)` */
  predicate StartsWith(s: string, p: string) {
    IsPrefix(p, s)
  }

  /** `s.includes(t)`: t occurs in s at some position. */
  predicate Contains(s: string, t: string)
    decreases |s|
  {
    IsPrefix(t, s) || (|s| > 0 && Contains(s[1..], t))
  }

  /** Every character of an occurrence is a character of the text. */
  lemma {:induction false} ContainsHasChars(s: string, t: string, k: nat)
    requires Contains(s, t) && k < |t|
    ensures t[k] in s
  {
    if IsPrefix(t, s) {
      assert s[k] == t[k];
    } else {
      ContainsHasChars(s[1..], t, k);
    }
  }

  /** The empty string occurs in every string, and no longer string occurs in a shorter one. */
  lemma {:induction false} ContainsLength(s: string, t: string)
    ensures t == [] ==> Contains(s, t)
    ensures Contains(s, t) ==> |t| <= |s|
    decreases |s|
  {
    if |s| > 0 { ContainsLength(s[1..], t); }
  }

  /** An occurrence at a known position. */
  lemma {:induction false} ContainsAt(s: string, t: string, i: nat)
    requires i + |t| <= |s| && s[i..i + |t|] == t
    ensures Contains(s, t)
    decreases i
  {
    if i > 0 {
      assert s[1..][i - 1..i - 1 + |t|] == s[i..i + |t|];
      ContainsAt(s[1..], t, i - 1);
    }
  }

  function LowerChar(c: char): char {
    if 'A' <= c <= 'Z' then (c as int + 32) as char else c
  }

  /** `s.toLowerCase()`, on the ASCII letters. */
  function ToLower(s: string): (r: string)
    ensures |r| == |s|
    ensures forall i :: 0 <= i < |s| ==> r[i] == LowerChar(s[i])
  {
    if s == [] then [] else [LowerChar(s[0])] + ToLower(s[1..])
  }

  /** `s.substring(0, n)` for n >= 0. */
  function Take(s: string, n: nat): (r: string)
    ensures |r| == if n < |s| then n else |s|
    ensures IsPrefix(r, s)
  {
    if n < |s| then s[..n] else s
  }

  /** `s.split(sep).pop()`: the text after the last `sep`, or all of s when sep does not occur. */
  function AfterLast(s: string, sep: char): (r: string)
    ensures |r| <= |s| && r == s[|s| - |r|..]
    ensures sep !in r
    ensures |r| < |s| ==> s[|s| - |r| - 1] == sep
    ensures |r| < |s| <==> sep in s
  {
    if s == [] then []
    else if s[|s| - 1] == sep then []
    else
      var init, last := s[..|s| - 1], s[|s| - 1];
      var r0 := AfterLast(init, sep);
      var r := r0 + [last];
      assert s == init + [last];
      assert r == s[|s| - |r|..] by {
        assert s[|s| - |r0| - 1..] == init[|init| - |r0|..] + [last];
      }
      assert |r| < |s| ==> s[|s| - |r| - 1] == sep by {
        assert |r0| < |init| ==> s[|s| - |r0| - 2] == init[|init| - |r0| - 1];
      }
      assert sep in s <==> sep in init;
      r
  }

  /** A suffix that follows the separator splits the string around that separator. */
  lemma SplitBeforeSuffix(s: string, r: string, sep: char)
    requires |r| < |s| && r == s[|s| - |r|..] && s[|s| - |r| - 1] == sep
    ensures s == s[..|s| - |r| - 1] + [sep] + r
  {
    var off := |s| - |r|;
    assert s[off - 1..] == [s[off - 1]] + s[off..];
    assert s == s[..off - 1] + s[off - 1..];
  }

  /** After joining with a separator, the text after the last separator is the separator-free tail. */
  lemma {:induction false} AfterLastJoin(p: string, e: string, sep: char)
    requires sep !in e
    ensures AfterLast(p + [sep] + e, sep) == e
    decreases |e|
  {
    if e == [] {
      assert (p + [sep] + e)[|p + [sep] + e| - 1] == sep;
    } else {
      var s := p + [sep] + e;
      assert s[..|s| - 1] == p + [sep] + e[..|e| - 1];
      AfterLastJoin(p, e[..|e| - 1], sep);
      assert e == e[..|e| - 1] + [e[|e| - 1]];
    }
  }

  /** The whole string comes back exactly when the separator never occurs. */
  lemma AfterLastWhole(s: string, sep: char)
    ensures AfterLast(s, sep) == s <==> sep !in s
  {
  }

  /** The parser JavaScript's `parseFloat` stands for: None is NaN. */
  type NumberParser = string -> Option<real>
}
