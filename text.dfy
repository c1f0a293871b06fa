/** String helpers mirroring the Python string operations the tool uses
    ("".join, sep.join, str.endswith and str.rstrip), plus `StartsWith`,
    `LastIndexOf` and `Split`, which the contracts use to take strings
    apart again. */
module Text {
  import opened Base

  /** "".join(parts) */
  function Concat(parts: seq<string>): string
  {
    if parts == [] then "" else parts[0] + Concat(parts[1..])
  }

  lemma {:induction false} ConcatAppend(a: seq<string>, b: seq<string>)
    ensures Concat(a + b) == Concat(a) + Concat(b)
  {
    if a == [] {
      assert a + b == b;
    } else {
      assert (a + b)[1..] == a[1..] + b;
      ConcatAppend(a[1..], b);
    }
  }

  /** sep.join(parts) */
  function Join(sep: string, parts: seq<string>): string
  {
    if parts == [] then ""
    else if |parts| == 1 then parts[0]
    else parts[0] + sep + Join(sep, parts[1..])
  }

  /** s.split(c) for a one-character separator: always at least one field. */
  function Split(c: char, s: string): (r: seq<string>)
    ensures |r| > 0
  {
    if s == [] then [""]
    else
      var rest := Split(c, s[1..]);
      if s[0] == c then [""] + rest else [[s[0]] + rest[0]] + rest[1..]
  }

  /** Splitting a field that holds no separator gives that field back. */
  lemma {:induction false} SplitNoSeparator(c: char, p: string, tail: string)
    requires c !in p
    ensures Split(c, p + tail) == [p + Split(c, tail)[0]] + Split(c, tail)[1..]
  {
    var r := Split(c, tail);
    if p == [] {
      assert p + tail == tail;
      assert p + r[0] == r[0];
      assert r == [r[0]] + r[1..];
    } else {
      assert (p + tail)[1..] == p[1..] + tail;
      SplitNoSeparator(c, p[1..], tail);
      assert [p[0]] + (p[1..] + r[0]) == p + r[0];
    }
  }

  /** Splitting undoes joining, provided no part contains the separator. */
  lemma {:induction false} SplitJoin(c: char, parts: seq<string>)
    requires |parts| > 0
    requires forall i :: 0 <= i < |parts| ==> c !in parts[i]
    ensures Split(c, Join([c], parts)) == parts
  {
    if |parts| == 1 {
      SplitNoSeparator(c, parts[0], "");
      assert parts[0] + "" == parts[0];
    } else {
      var rest := parts[1..];
      var tail := Join([c], rest);
      SplitJoin(c, rest);
      var sepTail := [c] + tail;
      assert sepTail[1..] == tail;
      assert Split(c, sepTail) == [""] + rest;
      assert Join([c], parts) == parts[0] + sepTail;
      SplitNoSeparator(c, parts[0], sepTail);
      assert parts[0] + "" == parts[0];
      assert parts == [parts[0]] + rest;
    }
  }

  predicate StartsWith(s: string, prefix: string)
  {
    |prefix| <= |s| && s[..|prefix|] == prefix
  }

  /** s.endswith(suffix) */
  predicate EndsWith(s: string, suffix: string)
  {
    |suffix| <= |s| && s[|s| - |suffix|..] == suffix
  }

  /** s.endswith(tuple(suffixes)): true when s ends with any of them. */
  predicate EndsWithAny(s: string, suffixes: seq<string>)
  {
    exists i :: 0 <= i < |suffixes| && EndsWith(s, suffixes[i])
  }

  /** s.rstrip(c): drop every trailing c. */
  function RStrip(s: string, c: char): (r: string)
    ensures |r| <= |s| && r == s[..|r|]
    ensures r == [] || r[|r| - 1] != c
    ensures forall i :: |r| <= i < |s| ==> s[i] == c
  {
    if s != [] && s[|s| - 1] == c then RStrip(s[..|s| - 1], c) else s
  }

  /** The position of the last c in s, if any. */
  function LastIndexOf(c: char, s: string): (r: Option<nat>)
    ensures r.None? <==> c !in s
    ensures r.Some? ==> r.value < |s| && s[r.value] == c && c !in s[r.value + 1..]
  {
    if s == [] then None
    else if s[|s| - 1] == c then Some(|s| - 1)
    else LastIndexOf(c, s[..|s| - 1])
  }

  /** count copies of s */
  function Repeat(s: string, count: nat): seq<string>
  {
    if count == 0 then [] else [s] + Repeat(s, count - 1)
  }
}
