/**
 * The JavaScript string operations the modelled code relies on: `startsWith`,
 * `endsWith`, `includes`, ASCII case mapping, `trim`, `split(c)[0]` and the
 * UTF-16 length that `.length` reports. A regular expression that is an
 * alternation of lower-case ASCII literals with the `i` flag matches exactly
 * when the ASCII-lower-cased subject contains one of the literals: with the
 * `i` flag (and no `u` flag) JavaScript folds case by upper-casing each
 * character and never maps a non-ASCII character onto an ASCII one.
 */
module JsString {

  /** `s.startsWith(p)` */
  predicate StartsWith(s: string, p: string) {
    |p| <= |s| && s[..|p|] == p
  }

  /** `s.endsWith(p)` */
  predicate EndsWith(s: string, p: string) {
    |p| <= |s| && s[|s| - |p|..] == p
  }

  /** `p` occurs in `s` starting at index `j`. */
  predicate OccursAt(s: string, p: string, j: int) {
    0 <= j && j + |p| <= |s| && s[j..j + |p|] == p
  }

  /** `s.includes(p)`: `p` occurs somewhere in `s`. */
  predicate Contains(s: string, p: string) {
    exists j :: 0 <= j <= |s| - |p| && OccursAt(s, p, j)
  }

  lemma ContainsAt(s: string, p: string, j: int)
    requires OccursAt(s, p, j)
    ensures Contains(s, p)
  {
  }

  lemma ContainsWhere(s: string, p: string) returns (j: int)
    requires Contains(s, p)
    ensures OccursAt(s, p, j)
  {
    j :| OccursAt(s, p, j);
  }

  lemma ContainsInMiddle(a: string, p: string, b: string)
    ensures Contains(a + p + b, p)
  {
    assert (a + p + b)[|a|..|a| + |p|] == p;
    ContainsAt(a + p + b, p, |a|);
  }

  lemma ContainsExtends(s: string, p: string, a: string, b: string)
    requires Contains(s, p)
    ensures Contains(a + s + b, p)
  {
    var j := ContainsWhere(s, p);
    assert (a + s + b)[|a| + j..|a| + j + |p|] == s[j..j + |p|];
    ContainsAt(a + s + b, p, |a| + j);
  }

  /** Every character of `s` is in `cs`. */
  predicate OverAlphabet(s: string, cs: set<char>) {
    forall k :: 0 <= k < |s| ==> s[k] in cs
  }

  /** A pattern with a character outside the alphabet `cs` of `s` does not occur in `s`. */
  lemma ContainsNeedsChar(s: string, cs: set<char>, p: string, i: int)
    requires OverAlphabet(s, cs)
    requires 0 <= i < |p| && p[i] !in cs
    ensures !Contains(s, p)
  {
    forall j | 0 <= j <= |s| - |p|
      ensures !OccursAt(s, p, j)
    {
      assert s[j..j + |p|][i] == s[j + i];
    }
  }

  /** A pattern with two adjacent characters that are never adjacent in `s` does not
    * occur in `s`. */
  lemma ContainsNeedsPair(s: string, p: string, i: int)
    requires 0 <= i < |p| - 1
    requires forall k :: 0 <= k < |s| - 1 ==> s[k] != p[i] || s[k + 1] != p[i + 1]
    ensures !Contains(s, p)
  {
    forall j | 0 <= j <= |s| - |p|
      ensures !OccursAt(s, p, j)
    {
      assert s[j..j + |p|][i] == s[j + i] && s[j..j + |p|][i + 1] == s[j + i + 1];
    }
  }

  lemma ContainsEmpty(s: string)
    ensures Contains(s, "")
  {
    ContainsAt(s, "", 0);
  }

  lemma ContainsShorter(s: string, p: string)
    requires Contains(s, p)
    ensures |p| <= |s|
  {
    var j := ContainsWhere(s, p);
  }

  lemma StartsWithContains(s: string, p: string)
    requires StartsWith(s, p)
    ensures Contains(s, p)
  {
    ContainsAt(s, p, 0);
  }

  /** The substrings of `e` also occur in any string containing `e`. */
  lemma ContainsTransitive(s: string, e: string, p: string)
    requires Contains(s, e) && Contains(e, p)
    ensures Contains(s, p)
  {
    var j := ContainsWhere(s, e);
    var k := ContainsWhere(e, p);
    forall t | 0 <= t < |p|
      ensures s[j + k + t] == p[t]
    {
      assert e[k + t] == p[t];
      assert s[j + (k + t)] == e[k + t];
    }
    assert s[j + k..j + k + |p|] == p;
    ContainsAt(s, p, j + k);
  }

  // ---------------------------------------------------------------------
  // ASCII case mapping

  function LowerChar(c: char): char {
    if 'A' <= c <= 'Z' then (c as int + 32) as char else c
  }

  function UpperChar(c: char): char {
    if 'a' <= c <= 'z' then (c as int - 32) as char else c
  }

  /** `s.toLowerCase()` restricted to ASCII letters. */
  function LowerAscii(s: string): string {
    seq(|s|, i requires 0 <= i < |s| => LowerChar(s[i]))
  }

  /** Lower-casing leaves a string without upper-case ASCII letters unchanged. */
  lemma LowerAsciiOfLower(s: string)
    requires forall k :: 0 <= k < |s| ==> !('A' <= s[k] <= 'Z')
    ensures LowerAscii(s) == s
  {
  }

  /** `s.toUpperCase()` restricted to ASCII letters. */
  function UpperAscii(s: string): string {
    seq(|s|, i requires 0 <= i < |s| => UpperChar(s[i]))
  }

  /** `/token/i.test(s)` for a lower-case ASCII `token`. */
  predicate ContainsIgnoringCase(s: string, token: string) {
    Contains(LowerAscii(s), token)
  }

  /** Some token occurs in `s` (an alternation `a|b|c` without the `i` flag). */
  predicate ContainsAny(s: string, tokens: seq<string>)
    decreases |tokens|
  {
    |tokens| > 0 && (Contains(s, tokens[0]) || ContainsAny(s, tokens[1..]))
  }

  lemma {:induction false} ContainsAnyIff(s: string, tokens: seq<string>)
    ensures ContainsAny(s, tokens) <==> exists t :: t in tokens && Contains(s, t)
    decreases |tokens|
  {
    if |tokens| > 0 {
      ContainsAnyIff(s, tokens[1..]);
      assert tokens == [tokens[0]] + tokens[1..];
    }
  }

  /** No alternative occurs, so the alternation does not match. */
  lemma {:induction false} ContainsNone(s: string, tokens: seq<string>)
    requires forall i :: 0 <= i < |tokens| ==> !Contains(s, tokens[i])
    ensures !ContainsAny(s, tokens)
    decreases |tokens|
  {
    if |tokens| > 0 {
      assert !Contains(s, tokens[0]);
      forall i | 0 <= i < |tokens[1..]|
        ensures !Contains(s, tokens[1..][i])
      {
        assert tokens[1..][i] == tokens[i + 1];
      }
      ContainsNone(s, tokens[1..]);
    }
  }

  /** `/a|b|c/i.test(s)` for lower-case ASCII alternatives. */
  predicate ContainsAnyIgnoringCase(s: string, tokens: seq<string>) {
    ContainsAny(LowerAscii(s), tokens)
  }

  // ---------------------------------------------------------------------
  // UTF-16 lengths and code units

  function Utf16Width(c: char): nat {
    if c as int > 0xFFFF then 2 else 1
  }

  /** `s.length`: the number of UTF-16 code units. */
  function Utf16Length(s: string): nat {
    if s == [] then 0 else Utf16Width(s[0]) + Utf16Length(s[1..])
  }

  lemma {:induction false} Utf16LengthAtLeast(s: string)
    ensures |s| <= Utf16Length(s)
  {
    if s != [] {
      Utf16LengthAtLeast(s[1..]);
    }
  }

  lemma {:induction false} Utf16LengthAppend(a: string, b: string)
    ensures Utf16Length(a + b) == Utf16Length(a) + Utf16Length(b)
  {
    if a != [] {
      assert (a + b)[1..] == a[1..] + b;
      Utf16LengthAppend(a[1..], b);
    } else {
      assert a + b == b;
    }
  }

  /** ASCII upper-casing keeps every character's width, so the UTF-16 length too. */
  lemma {:induction false} UpperAsciiKeepsLength(s: string)
    ensures Utf16Length(UpperAscii(s)) == Utf16Length(s)
  {
    if s != [] {
      assert UpperAscii(s)[1..] == UpperAscii(s[1..]);
      UpperAsciiKeepsLength(s[1..]);
    }
  }

  /** `s.split('')`: the UTF-16 code units of `s`. */
  function Utf16Units(s: string): (units: seq<int>)
    ensures |units| == Utf16Length(s)
    ensures forall k :: 0 <= k < |units| ==> 0 <= units[k] <= 0xFFFF
  {
    if s == [] then []
    else
      var c := s[0] as int;
      var head := if c <= 0xFFFF then [c]
                  else [0xD800 + (c - 0x10000) / 0x400, 0xDC00 + (c - 0x10000) % 0x400];
      head + Utf16Units(s[1..])
  }

  // ---------------------------------------------------------------------
  // trim and split

  /** The characters `String.prototype.trim` removes: white space and line terminators. */
  predicate IsJsWhitespace(c: char) {
    c == '\t' || c == '\n' || c == '\U{B}' || c == '\U{C}' || c == '\r' || c == ' '
    || c == '\U{A0}' || c == '\U{1680}' || ('\U{2000}' <= c <= '\U{200A}')
    || c == '\U{2028}' || c == '\U{2029}' || c == '\U{202F}' || c == '\U{205F}'
    || c == '\U{3000}' || c == '\U{FEFF}'
  }

  function TrimStart(s: string): (r: string)
    ensures |r| <= |s|
    ensures r == [] || !IsJsWhitespace(r[0])
    ensures r == s[|s| - |r|..]
    ensures forall k :: 0 <= k < |s| - |r| ==> IsJsWhitespace(s[k])
  {
    if s != [] && IsJsWhitespace(s[0]) then TrimStart(s[1..]) else s
  }

  function TrimEnd(s: string): (r: string)
    ensures |r| <= |s|
    ensures r == [] || !IsJsWhitespace(r[|r| - 1])
    ensures r == s[..|r|]
    ensures forall k :: |r| <= k < |s| ==> IsJsWhitespace(s[k])
  {
    if s != [] && IsJsWhitespace(s[|s| - 1]) then TrimEnd(s[..|s| - 1]) else s
  }

  /** `s.trim()` */
  function Trim(s: string): string {
    TrimEnd(TrimStart(s))
  }

  /** A string that does not start with white space is its own `trimStart()`. */
  lemma TrimStartUnpadded(s: string)
    requires |s| > 0 && !IsJsWhitespace(s[0])
    ensures TrimStart(s) == s
  {
  }

  /** Trimming a string that neither starts nor ends with white space changes nothing. */
  lemma TrimUnpadded(s: string)
    requires |s| > 0 && !IsJsWhitespace(s[0]) && !IsJsWhitespace(s[|s| - 1])
    ensures Trim(s) == s
  {
    TrimStartUnpadded(s);
  }

  /** `s.split(sep)[0]` for a one-character separator: everything before the first `sep`. */
  function BeforeFirst(s: string, sep: char): (r: string)
    ensures |r| <= |s| && r == s[..|r|]
    ensures sep !in r
    ensures |r| < |s| ==> s[|r|] == sep
  {
    if s == [] || s[0] == sep then [] else [s[0]] + BeforeFirst(s[1..], sep)
  }

  /** A string without the separator is its own first part. */
  lemma {:induction false} BeforeFirstAbsent(s: string, sep: char)
    requires sep !in s
    ensures BeforeFirst(s, sep) == s
  {
    if s != [] {
      assert sep !in s[1..];
      BeforeFirstAbsent(s[1..], sep);
      assert [s[0]] + s[1..] == s;
    }
  }

  /** The first part ends where the first separator stands. */
  lemma {:induction false} BeforeFirstUpTo(s: string, sep: char, t: string)
    requires sep !in s
    ensures BeforeFirst(s + [sep] + t, sep) == s
  {
    if s != [] {
      assert (s + [sep] + t)[1..] == s[1..] + [sep] + t;
      assert sep !in s[1..];
      BeforeFirstUpTo(s[1..], sep, t);
      assert [s[0]] + s[1..] == s;
    } else {
      assert s + [sep] + t == [sep] + t;
    }
  }

  // ---------------------------------------------------------------------
  // first-match tables

  /** One arm of an if/else-if chain: the label applies when any token occurs. */
  datatype Rule = Rule(tokens: seq<string>, result: string)

  /** The label of the first rule with an occurring token, or `fallback`. */
  function FirstLabel(s: string, rules: seq<Rule>, fallback: string): string
    decreases |rules|
  {
    if rules == [] then fallback
    else if ContainsAny(s, rules[0].tokens) then rules[0].result
    else FirstLabel(s, rules[1..], fallback)
  }

  /** The first-match label is the label of the least matching rule, or the fallback when none matches. */
  lemma {:induction false} FirstLabelIsLeastMatch(s: string, rules: seq<Rule>, fallback: string, k: int)
    requires 0 <= k <= |rules|
    requires forall j :: 0 <= j < k ==> !ContainsAny(s, rules[j].tokens)
    requires k < |rules| ==> ContainsAny(s, rules[k].tokens)
    ensures FirstLabel(s, rules, fallback) == if k < |rules| then rules[k].result else fallback
    decreases |rules|
  {
    if rules != [] && k > 0 {
      FirstLabelIsLeastMatch(s, rules[1..], fallback, k - 1);
    }
  }
}
