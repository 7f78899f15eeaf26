/**
  Python `str` operations used throughout the relay and the components,
  with the semantics of CPython's built-ins: `startswith`, `in`,
  `split(sep)`, `sep.join(parts)`, `replace(pattern, replacement)` and `strip()`.
  A Python string is a `seq<char>` of Unicode scalar values.
 */
module Strings {

  /** `s.startswith(prefix)` */
  predicate StartsWith(s: string, prefix: string) {
    |prefix| <= |s| && s[..|prefix|] == prefix
  }

  /** `s.endswith(suffix)` */
  predicate EndsWith(s: string, suffix: string) {
    |suffix| <= |s| && s[|s| - |suffix|..] == suffix
  }

  /** `sub in s`: some position of `s` starts an occurrence of `sub`. */
  predicate Contains(s: string, sub: string)
    decreases |s|
  {
    StartsWith(s, sub) || (|s| > 0 && Contains(s[1..], sub))
  }

  /** `"".join(parts)` */
  function Concat(parts: seq<string>): (r: string)
    ensures |parts| == 1 ==> r == parts[0]
  {
    if parts == [] then "" else parts[0] + Concat(parts[1..])
  }

  lemma {:induction false} ConcatAppend(a: seq<string>, b: seq<string>)
    ensures Concat(a + b) == Concat(a) + Concat(b)
  {
    if a == [] {
      assert a + b == b;
    } else {
      assert (a + b)[1..] == a[1..] + b;
      ConcatAppend(a[1..], b);
    }
  }

  /** `sep.join(parts)` */
  function Join(parts: seq<string>, sep: string): string {
    if |parts| == 0 then ""
    else if |parts| == 1 then parts[0]
    else parts[0] + sep + Join(parts[1..], sep)
  }

  /**
    `s.split(sep)` for a non-empty separator: occurrences are found from the
    left without overlapping, and the result always has at least one element.
   */
  function Split(s: string, sep: string): (r: seq<string>)
    requires sep != ""
    ensures |r| >= 1
    decreases |s|
  {
    if StartsWith(s, sep) then [""] + Split(s[|sep|..], sep)
    else if s == [] then [""]
    else
      var rest := Split(s[1..], sep);
      [[s[0]] + rest[0]] + rest[1..]
  }

  /** Joining the first part with a character in front only moves that character. */
  lemma JoinConsFirst(c: char, parts: seq<string>, sep: string)
    requires |parts| >= 1
    ensures Join([[c] + parts[0]] + parts[1..], sep) == [c] + Join(parts, sep)
  {
    var q := [[c] + parts[0]] + parts[1..];
    if |parts| > 1 {
      assert q[1..] == parts[1..];
    }
  }

  /** `sep.join(s.split(sep)) == s`: splitting loses nothing. */
  lemma {:induction false} JoinSplit(s: string, sep: string)
    requires sep != ""
    ensures Join(Split(s, sep), sep) == s
    decreases |s|
  {
    if StartsWith(s, sep) {
      var rest := Split(s[|sep|..], sep);
      JoinSplit(s[|sep|..], sep);
      assert ([""] + rest)[1..] == rest;
      assert s == sep + s[|sep|..];
    } else if s == [] {
    } else {
      var rest := Split(s[1..], sep);
      JoinSplit(s[1..], sep);
      JoinConsFirst(s[0], rest, sep);
      assert s == [s[0]] + s[1..];
    }
  }

  /** A string without the separator character does not split. */
  lemma {:induction false} SplitWithout(s: string, c: char)
    requires c !in s
    ensures Split(s, [c]) == [s]
    decreases |s|
  {
    if s != [] {
      assert s[..1][0] == s[0] != c;
      SplitWithout(s[1..], c);
      assert [s[0]] + s[1..] == s;
    }
  }

  /** A part without the separator character ends at the first separator. */
  lemma {:induction false} SplitAtSeparator(part: string, c: char, rest: string)
    requires c !in part
    ensures Split(part + [c] + rest, [c]) == [part] + Split(rest, [c])
    decreases |part|
  {
    var s := part + [c] + rest;
    if part == [] {
      assert s == [c] + rest;
      assert StartsWith(s, [c]);
      assert s[1..] == rest;
    } else {
      assert s[..1][0] == part[0] != c;
      assert !StartsWith(s, [c]);
      assert s[1..] == part[1..] + [c] + rest;
      SplitAtSeparator(part[1..], c, rest);
      assert [s[0]] + part[1..] == part;
    }
  }

  /** Splitting parts joined by a character none of them holds gives the parts back, before what follows. */
  lemma {:induction false} SplitJoinThen(parts: seq<string>, c: char, rest: string)
    requires |parts| >= 1
    requires forall i :: 0 <= i < |parts| ==> c !in parts[i]
    ensures Split(Join(parts, [c]) + [c] + rest, [c]) == parts + Split(rest, [c])
    decreases |parts|
  {
    if |parts| == 1 {
      SplitAtSeparator(parts[0], c, rest);
    } else {
      var tail := parts[1..];
      assert Join(parts, [c]) + [c] + rest == parts[0] + [c] + (Join(tail, [c]) + [c] + rest);
      SplitAtSeparator(parts[0], c, Join(tail, [c]) + [c] + rest);
      SplitJoinThen(tail, c, rest);
      assert parts == [parts[0]] + tail;
    }
  }

  /**
    `s.replace(pattern, replacement)`. For a non-empty `pattern` every left-to-right,
    non-overlapping occurrence is replaced; for an empty `pattern` CPython inserts
    `replacement` before every character and at the end.
   */
  function Replace(s: string, pattern: string, replacement: string): string
    decreases |s|
  {
    if pattern == [] then
      if s == [] then replacement else replacement + [s[0]] + Replace(s[1..], pattern, replacement)
    else if StartsWith(s, pattern) then replacement + Replace(s[|pattern|..], pattern, replacement)
    else if s == [] then []
    else [s[0]] + Replace(s[1..], pattern, replacement)
  }

  /** Replacing is splitting at every occurrence and joining with the replacement. */
  lemma {:induction false} ReplaceIsJoinOfSplit(s: string, pattern: string, replacement: string)
    requires pattern != ""
    ensures Replace(s, pattern, replacement) == Join(Split(s, pattern), replacement)
    decreases |s|
  {
    if StartsWith(s, pattern) {
      ReplaceIsJoinOfSplit(s[|pattern|..], pattern, replacement);
      var rest := Split(s[|pattern|..], pattern);
      assert ([""] + rest)[1..] == rest;
    } else if s == [] {
    } else {
      ReplaceIsJoinOfSplit(s[1..], pattern, replacement);
      JoinConsFirst(s[0], Split(s[1..], pattern), replacement);
    }
  }

  /** A string without any occurrence of `pattern` is left unchanged by `replace`. */
  lemma {:induction false} ReplaceAbsent(s: string, pattern: string, replacement: string)
    requires pattern != "" && !Contains(s, pattern)
    ensures Replace(s, pattern, replacement) == s
    decreases |s|
  {
    if s != [] {
      ReplaceAbsent(s[1..], pattern, replacement);
    }
  }

  /** The characters `str.isspace` accepts, which `strip()` removes. */
  predicate IsSpace(c: char) {
    c == ' ' || ('\t' <= c <= '\r') || ('\U{1c}' <= c <= '\U{1f}') ||
    c == '\U{85}' || c == '\U{a0}' || c == '\U{1680}' || ('\U{2000}' <= c <= '\U{200a}') ||
    c == '\U{2028}' || c == '\U{2029}' || c == '\U{202f}' || c == '\U{205f}' || c == '\U{3000}'
  }

  function StripLeading(s: string): string
    decreases |s|
  {
    if s != [] && IsSpace(s[0]) then StripLeading(s[1..]) else s
  }

  function StripTrailing(s: string): string
    decreases |s|
  {
    if s != [] && IsSpace(s[|s| - 1]) then StripTrailing(s[..|s| - 1]) else s
  }

  /** `s.strip()` */
  function Strip(s: string): string {
    StripTrailing(StripLeading(s))
  }

  /** `lstrip()` removes a whitespace prefix and stops at the first other character. */
  lemma {:induction false} StripLeadingSpec(s: string)
    ensures var r := StripLeading(s);
            |r| <= |s| && r == s[|s| - |r|..] &&
            (r == [] || !IsSpace(r[0])) &&
            forall i :: 0 <= i < |s| - |r| ==> IsSpace(s[i])
    decreases |s|
  {
    if s != [] && IsSpace(s[0]) {
      StripLeadingSpec(s[1..]);
      var r := StripLeading(s);
      assert s[1..][|s| - 1 - |r|..] == s[|s| - |r|..];
      assert forall i :: 1 <= i < |s| - |r| ==> s[1..][i - 1] == s[i];
    }
  }

  /** `rstrip()` removes a whitespace suffix and stops at the last other character. */
  lemma {:induction false} StripTrailingSpec(s: string)
    ensures var r := StripTrailing(s);
            |r| <= |s| && r == s[..|r|] &&
            (r == [] || !IsSpace(r[|r| - 1])) &&
            forall i :: |r| <= i < |s| ==> IsSpace(s[i])
    decreases |s|
  {
    if s != [] && IsSpace(s[|s| - 1]) {
      StripTrailingSpec(s[..|s| - 1]);
      var r := StripTrailing(s);
      assert s[..|s| - 1][..|r|] == s[..|r|];
      assert forall i :: |r| <= i < |s| - 1 ==> s[..|s| - 1][i] == s[i];
    }
  }

  /**
    `s.strip()` is the longest middle part of `s` that neither starts nor
    ends with whitespace; everything removed on either side is whitespace,
    so it is empty exactly for an all-whitespace string.
   */
  lemma StripSpec(s: string)
    ensures var r := Strip(s);
            (r == [] || (!IsSpace(r[0]) && !IsSpace(r[|r| - 1]))) &&
            (exists i :: 0 <= i <= |s| - |r| && s[i..][..|r|] == r) &&
            (r == [] <==> forall i :: 0 <= i < |s| ==> IsSpace(s[i]))
    ensures var r := Strip(s); var k := |s| - |StripLeading(s)|;
            0 <= k && k + |r| <= |s| && s[k..k + |r|] == r &&
            (forall j :: 0 <= j < k ==> IsSpace(s[j])) &&
            (forall j :: k + |r| <= j < |s| ==> IsSpace(s[j]))
  {
    var left := StripLeading(s);
    var r := StripTrailing(left);
    StripLeadingSpec(s);
    StripTrailingSpec(left);
    assert s[|s| - |left|..][..|r|] == r;
    if r != [] {
      assert r[0] == left[0];
    }
    if r == [] {
      assert left == [];
    }
    if r != [] {
      assert !IsSpace(s[|s| - |left|]) by { assert left[0] == s[|s| - |left|]; }
    }
    var k := |s| - |left|;
    assert s[k..k + |r|] == r;
    assert forall j :: k + |r| <= j < |s| ==> s[j] == left[j - k];
  }

  /** The decimal digit for `0 <= d < 10`. */
  function Digit(d: nat): char
    requires d < 10
  {
    "0123456789"[d]
  }

  function NatToString(n: nat): (r: string)
    ensures |r| >= 1
    ensures forall i :: 0 <= i < |r| ==> '0' <= r[i] <= '9'
  {
    if n < 10 then [Digit(n)] else NatToString(n / 10) + [Digit(n % 10)]
  }

  /** `str(n)` for a Python int. */
  function IntToString(n: int): (r: string)
    ensures |r| >= 1
    ensures (r[0] == '-') <==> n < 0
  {
    if n < 0 then "-" + NatToString(-n) else NatToString(n)
  }
}
