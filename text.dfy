/**
  * The JavaScript string operations the registry relies on: `trim`, `endsWith`,
  * `Array.prototype.join`, decimal rendering of a number, `charAt(0).toUpperCase()`,
  * and `path.join`/`path.resolve` reduced to plain concatenation.
  */
module Text {

  /** The code points `String.prototype.trim` removes: ECMAScript WhiteSpace and LineTerminator. */
  predicate IsSpace(c: char) {
    c == ' ' || c == '\t' || c == '\n' || c == '\r' || c == '\U{000B}' || c == '\U{000C}' ||
    c == '\U{00A0}' || c == '\U{1680}' || ('\U{2000}' <= c <= '\U{200A}') ||
    c == '\U{2028}' || c == '\U{2029}' || c == '\U{202F}' || c == '\U{205F}' ||
    c == '\U{3000}' || c == '\U{FEFF}'
  }

  predicate AllSpace(s: string) {
    forall k :: 0 <= k < |s| ==> IsSpace(s[k])
  }

  /** Neither the first nor the last character is white space. */
  predicate IsTrimmed(s: string) {
    s == [] || (!IsSpace(s[0]) && !IsSpace(s[|s| - 1]))
  }

  /** `s.trimStart()`: the suffix of `s` left after dropping its leading white space. */
  function TrimStart(s: string): (r: string)
    ensures |r| <= |s| && r == s[|s| - |r|..]
    ensures r == [] || !IsSpace(r[0])
    ensures AllSpace(s[..|s| - |r|])
  {
    if s != [] && IsSpace(s[0]) then
      var r := TrimStart(s[1..]);
      TrimStartStep(s, r);
      r
    else
      s
  }

  /** `s.trimEnd()`: the prefix of `s` left after dropping its trailing white space. */
  function TrimEnd(s: string): (r: string)
    ensures |r| <= |s| && r == s[..|r|]
    ensures r == [] || !IsSpace(r[|r| - 1])
    ensures AllSpace(s[|r|..])
  {
    if s != [] && IsSpace(s[|s| - 1]) then
      var r := TrimEnd(s[..|s| - 1]);
      TrimEndStep(s, r);
      r
    else
      s
  }

  /** A leading white-space character joins the white space `TrimStart` drops from the rest. */
  lemma TrimStartStep(s: string, r: string)
    requires s != [] && IsSpace(s[0])
    requires |r| <= |s| - 1 && r == s[1..][|s| - 1 - |r|..] && AllSpace(s[1..][..|s| - 1 - |r|])
    ensures r == s[|s| - |r|..] && AllSpace(s[..|s| - |r|])
  {
    assert s[1..][|s| - 1 - |r|..] == s[|s| - |r|..];
    forall k | 0 < k < |s| - |r|
      ensures IsSpace(s[k])
    {
      assert s[k] == s[1..][..|s| - 1 - |r|][k - 1];
    }
  }

  /** A trailing white-space character joins the white space `TrimEnd` drops from the rest. */
  lemma TrimEndStep(s: string, r: string)
    requires s != [] && IsSpace(s[|s| - 1])
    requires |r| <= |s| - 1 && r == s[..|s| - 1][..|r|] && AllSpace(s[..|s| - 1][|r|..])
    ensures r == s[..|r|] && AllSpace(s[|r|..])
  {
    assert s[..|s| - 1][..|r|] == s[..|r|];
    forall k | 0 <= k < |s| - |r| - 1
      ensures IsSpace(s[|r|..][k])
    {
      assert s[|r|..][k] == s[..|s| - 1][|r|..][k];
    }
  }

  /** `r` sits at offset `i` of `s`, with only white space before and after it. */
  predicate PaddedAt(s: string, r: string, i: nat) {
    i + |r| <= |s| && s[i..i + |r|] == r && AllSpace(s[..i]) && AllSpace(s[i + |r|..])
  }

  /**
    * `s.trim()`. The result is a contiguous piece of `s` with no white space at either
    * end, and everything cut off on either side is white space.
    */
  function Trim(s: string): (r: string)
    ensures IsTrimmed(r)
    ensures PaddedAt(s, r, |s| - |TrimStart(s)|)
  {
    var t := TrimStart(s);
    var r := TrimEnd(t);
    TrimPieces(s, t, r);
    TrimmedEnds(t, r);
    r
  }

  /** Cutting trailing white space off a text that starts with a non-space leaves a trimmed text. */
  lemma TrimmedEnds(t: string, r: string)
    requires t == [] || !IsSpace(t[0])
    requires |r| <= |t| && r == t[..|r|]
    requires r == [] || !IsSpace(r[|r| - 1])
    ensures IsTrimmed(r)
  {
    if r != [] {
      assert r[0] == t[0];
    }
  }

  /** The pieces `TrimStart` and `TrimEnd` cut off lie on either side of what remains. */
  lemma TrimPieces(s: string, t: string, r: string)
    requires |t| <= |s| && t == s[|s| - |t|..] && AllSpace(s[..|s| - |t|])
    requires |r| <= |t| && r == t[..|r|] && AllSpace(t[|r|..])
    ensures PaddedAt(s, r, |s| - |t|)
  {
    var i := |s| - |t|;
    assert s[i + |r|..] == t[|r|..];
  }

  lemma {:induction false} TrimStartPadded(a: string, m: string)
    requires AllSpace(a) && (m == [] || !IsSpace(m[0]))
    ensures TrimStart(a + m) == m
  {
    if a != [] {
      assert (a + m)[1..] == a[1..] + m;
      TrimStartPadded(a[1..], m);
    } else {
      assert a + m == m;
    }
  }

  lemma {:induction false} TrimEndPadded(m: string, b: string)
    requires AllSpace(b) && (m == [] || !IsSpace(m[|m| - 1]))
    ensures TrimEnd(m + b) == m
  {
    if b != [] {
      assert (m + b)[..|m + b| - 1] == m + b[..|b| - 1];
      TrimEndPadded(m, b[..|b| - 1]);
    } else {
      assert m + b == m;
    }
  }

  /**
    * Trimming is determined by the text between the padding: white space around a
    * trimmed string is removed and nothing else is.
    */
  lemma {:induction false} TrimPadded(a: string, m: string, b: string)
    requires AllSpace(a) && AllSpace(b) && IsTrimmed(m)
    ensures Trim(a + m + b) == m
  {
    assert a + m + b == a + (m + b);
    if m == [] {
      assert a + m + b == a + b;
      TrimStartAll(a + b);
      assert TrimStart(a + b) == [];
    } else {
      TrimStartPadded(a, m + b);
      TrimEndPadded(m, b);
    }
  }

  lemma {:induction false} TrimStartAll(s: string)
    requires AllSpace(s)
    ensures TrimStart(s) == []
  {
    if s != [] {
      TrimStartAll(s[1..]);
    }
  }

  /** A trimmed text is left as it is. */
  lemma TrimTrimmed(m: string)
    requires IsTrimmed(m)
    ensures Trim(m) == m
  {
    assert [] + m == m && m + [] == m;
    TrimStartPadded([], m);
    TrimEndPadded(m, []);
  }

  /** Trimming twice is trimming once. */
  lemma TrimIdempotent(s: string)
    ensures Trim(Trim(s)) == Trim(s)
  {
    TrimTrimmed(Trim(s));
  }

  /** `s.endsWith(suffix)`. */
  predicate EndsWith(s: string, suffix: string) {
    |suffix| <= |s| && s[|s| - |suffix|..] == suffix
  }

  /** Inserting `x` between `a` and `b` puts it at offset `|a|` of `a + b`. */
  lemma InsertAt(a: string, x: string, b: string)
    ensures a + x + b == (a + b)[..|a|] + x + (a + b)[|a|..]
  {
    assert (a + b)[..|a|] == a;
    assert (a + b)[|a|..] == b;
  }

  lemma AppendEmpty(a: string, b: string)
    ensures a + "" + b == a + b
  {
  }

  lemma AppendAssoc(a: string, b: string, c: string)
    ensures a + (b + c) == a + b + c
  {
  }

  lemma PrefixOfAppend(p: string, a: string, b: string)
    requires p <= a
    ensures p <= a + b
  {
    assert (a + b)[..|p|] == a[..|p|];
  }

  lemma EndsWithAppend(a: string, b: string)
    ensures EndsWith(a + b, b)
  {
    assert (a + b)[|a|..] == b;
  }

  /** The last but one character of `a + b` is that of `b`, when `b` has two characters or more. */
  lemma LastButOne(a: string, b: string)
    requires |b| >= 2
    ensures (a + b)[|a + b| - 2] == b[|b| - 2]
  {
  }

  /** Inserting `x` after `a` in a text that continues with `b`, `c` and `d`. */
  lemma InsertBefore3(a: string, x: string, b: string, c: string, d: string)
    ensures a + x + b + c + d == (a + "" + b + c + d)[..|a|] + x + (a + "" + b + c + d)[|a|..]
  {
    AppendAssoc(a + x, b + c, d);
    AppendAssoc(a + x, b, c);
    AppendAssoc(a, b + c, d);
    AppendAssoc(a, b, c);
    AppendEmpty(a, b);
    InsertAt(a, x, b + c + d);
  }

  /** Inserting `x` after `a` in a text that continues with `b` and `c`. */
  lemma InsertBefore2(a: string, x: string, b: string, c: string)
    ensures a + x + b + c == (a + "" + b + c)[..|a|] + x + (a + "" + b + c)[|a|..]
  {
    AppendAssoc(a + x, b, c);
    AppendAssoc(a, b, c);
    AppendEmpty(a, b);
    InsertAt(a, x, b + c);
  }

  /** Inserting `x` after `a` in a text that continues with `b`. */
  lemma InsertBefore1(a: string, x: string, b: string)
    ensures a + x + b == (a + "" + b)[..|a|] + x + (a + "" + b)[|a|..]
  {
    AppendEmpty(a, b);
    InsertAt(a, x, b);
  }

  /** `s.includes(sub)`. */
  ghost predicate Contains(s: string, sub: string) {
    exists i :: 0 <= i <= |s| && sub <= s[i..]
  }

  lemma ContainsMiddle(a: string, x: string, b: string)
    ensures Contains(a + x + b, x)
  {
    var s := a + x + b;
    assert s[|a|..] == x + b;
  }

  /** `items.join(sep)`. */
  function Join(items: seq<string>, sep: string): string
  {
    if |items| == 0 then ""
    else if |items| == 1 then items[0]
    else Join(items[..|items| - 1], sep) + sep + items[|items| - 1]
  }

  /** Every element of a joined list appears in the joined text. */
  lemma {:induction false} JoinContains(items: seq<string>, sep: string, k: nat)
    requires k < |items|
    ensures Contains(Join(items, sep), items[k])
  {
    if |items| == 1 {
      assert Join(items, sep) == "" + items[0] + "";
      ContainsMiddle("", items[0], "");
    } else {
      var init, last := items[..|items| - 1], items[|items| - 1];
      var front := Join(init, sep);
      if k == |items| - 1 {
        assert Join(items, sep) == (front + sep) + last + "" by {
          assert Join(items, sep) == front + sep + last;
        }
        ContainsMiddle(front + sep, last, "");
      } else {
        assert init[k] == items[k];
        JoinContains(init, sep, k);
        assert Join(items, sep) == front + (sep + last);
        ContainsPrefix(front, sep + last, items[k]);
      }
    }
  }

  /** What a text contains, the text extended at its end contains too. */
  lemma ContainsPrefix(s: string, t: string, sub: string)
    requires Contains(s, sub)
    ensures Contains(s + t, sub)
  {
    var i :| 0 <= i <= |s| && sub <= s[i..];
    assert (s + t)[i..] == s[i..] + t;
  }

  function DigitChar(d: nat): char
    requires d < 10
  {
    "0123456789"[d]
  }

  function DigitValue(c: char): nat
  {
    if '0' <= c <= '9' then (c as int - '0' as int) as nat else 0
  }

  predicate IsDigit(c: char) {
    '0' <= c <= '9'
  }

  /** The decimal rendering `${n}` of a non-negative integer. */
  function DecimalString(n: nat): (s: string)
    ensures |s| > 0
    ensures forall k :: 0 <= k < |s| ==> IsDigit(s[k])
    ensures s[0] == '0' ==> n == 0
  {
    if n < 10 then [DigitChar(n)]
    else DecimalString(n / 10) + [DigitChar(n % 10)]
  }

  /** Reads a string of decimal digits back as a number. */
  function DecimalValue(s: string): nat
  {
    if s == [] then 0 else 10 * DecimalValue(s[..|s| - 1]) + DigitValue(s[|s| - 1])
  }

  /** Rendering a number in decimal loses nothing: the digits read back as the number. */
  lemma {:induction false} DecimalRoundTrip(n: nat)
    ensures DecimalValue(DecimalString(n)) == n
  {
    if n >= 10 {
      var s := DecimalString(n);
      DecimalRoundTrip(n / 10);
      assert s[..|s| - 1] == DecimalString(n / 10);
    }
  }

  /** Distinct numbers have distinct decimal renderings. */
  lemma DecimalInjective(m: nat, n: nat)
    requires DecimalString(m) == DecimalString(n)
    ensures m == n
  {
    DecimalRoundTrip(m);
    DecimalRoundTrip(n);
  }

  /** `c.toUpperCase()` for a single character, restricted to ASCII letters. */
  function UpperChar(c: char): char
  {
    if 'a' <= c <= 'z' then (c as int - 32) as char else c
  }

  /** `s.charAt(0).toUpperCase() + s.slice(1)`. */
  function UpperFirst(s: string): (r: string)
    ensures |r| == |s|
    ensures s != [] ==> r[0] == UpperChar(s[0])
    ensures forall k :: 0 < k < |s| ==> r[k] == s[k]
  {
    if s == [] then "" else [UpperChar(s[0])] + s[1..]
  }

  /** `path.join(dir, name)`, without normalisation. */
  function PathJoin(dir: string, name: string): string
  {
    dir + "/" + name
  }

  /**
    * A name that is one path segment: not empty, without a separator, and neither "." nor
    * "..", as directory entries and the fixed subdirectory names are.
    */
  predicate IsSegment(name: string) {
    name != "" && name != "." && name != ".." && '/' !in name
  }

  /** Joining under one directory keeps single-segment names apart: distinct names give distinct paths. */
  lemma PathJoinInjective(dir: string, a: string, b: string)
    requires IsSegment(a) && IsSegment(b)
    requires PathJoin(dir, a) == PathJoin(dir, b)
    ensures a == b
  {
    assert a == PathJoin(dir, a)[|dir| + 1..];
    assert b == PathJoin(dir, b)[|dir| + 1..];
  }

  /**
   * `path.resolve(p)` against the working directory `cwd`, without normalisation:
   * an absolute path is kept, a relative one lands under `cwd`, and the result is
   * absolute whenever the working directory is.
   */
  function Resolve(cwd: string, p: string): (r: string)
    ensures |p| > 0 && p[0] == '/' ==> r == p
    ensures p != "" && p[0] != '/' ==> cwd + "/" <= r && r[|cwd| + 1..] == p
    ensures p == "" ==> r == cwd
    ensures |cwd| > 0 && cwd[0] == '/' ==> |r| > 0 && r[0] == '/'
  {
    if p == "" then cwd
    else if p[0] == '/' then p
    else PathJoin(cwd, p)
  }
}
