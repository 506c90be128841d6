/**
 * The Kotlin `String` operations the core relies on, over `string` (= `seq<char>`):
 * `isBlank`, `trim`, `split(" ")`, `lowercase`, `contains`, `substringAfterLast`
 * and `substringBeforeLast`.
 */
module Text {

  /** `Char.isWhitespace()` on the JVM: Java whitespace or a Unicode space separator. */
  predicate IsWhitespace(c: char) {
    || c == ' ' || c == '\t' || c == '\n' || c == '\U{000B}' || c == '\U{000C}' || c == '\r'
    || ('\U{001C}' <= c <= '\U{001F}')
    || c == '\U{00A0}' || c == '\U{1680}' || ('\U{2000}' <= c <= '\U{200A}')
    || c == '\U{2028}' || c == '\U{2029}' || c == '\U{202F}' || c == '\U{205F}' || c == '\U{3000}'
  }

  /** `isBlank()`: empty or made of whitespace only. */
  predicate IsBlank(s: string) {
    forall i :: 0 <= i < |s| ==> IsWhitespace(s[i])
  }

  /** `trimStart()`: `s` without its leading whitespace. */
  function TrimStart(s: string): (r: string)
    ensures |r| <= |s| && r == s[|s| - |r|..]
    ensures IsBlank(s[..|s| - |r|])
    ensures r == [] || !IsWhitespace(r[0])
  {
    if s != [] && IsWhitespace(s[0]) then
      var r := TrimStart(s[1..]);
      var cut := |s| - |r|;
      assert IsBlank(s[..cut]) by {
        forall i | 0 <= i < cut
          ensures IsWhitespace(s[..cut][i])
        {
          if i > 0 {
            assert s[..cut][i] == s[1..][..cut - 1][i - 1];
          }
        }
      }
      r
    else s
  }

  /** `trimEnd()`: `s` without its trailing whitespace. */
  function TrimEnd(s: string): (r: string)
    ensures |r| <= |s| && r == s[..|r|]
    ensures IsBlank(s[|r|..])
    ensures r == [] || !IsWhitespace(r[|r| - 1])
  {
    if s != [] && IsWhitespace(s[|s| - 1]) then
      var r := TrimEnd(s[..|s| - 1]);
      assert IsBlank(s[|r|..]) by {
        forall i | 0 <= i < |s| - |r|
          ensures IsWhitespace(s[|r|..][i])
        {
          if i < |s| - 1 - |r| {
            assert s[|r|..][i] == s[..|s| - 1][|r|..][i];
          }
        }
      }
      r
    else s
  }

  /** `trim()`: `s` without leading and trailing whitespace. */
  function Trim(s: string): string {
    TrimEnd(TrimStart(s))
  }

  /** A text trims to the empty text exactly when it is blank. */
  lemma TrimEmptyIffBlank(s: string)
    ensures Trim(s) == [] <==> IsBlank(s)
  {
    TrimParts(s, TrimStart(s), Trim(s));
  }

  /** What is left after trimming neither starts nor ends with whitespace. */
  lemma TrimEnds(s: string)
    ensures Trim(s) != [] ==> !IsWhitespace(Trim(s)[0]) && !IsWhitespace(Trim(s)[|Trim(s)| - 1])
  {
    TrimParts(s, TrimStart(s), Trim(s));
  }

  /** The facts `trim()` promises, from what `trimStart()` and `trimEnd()` promise. */
  lemma TrimParts(s: string, u: string, r: string)
    requires |u| <= |s| && u == s[|s| - |u|..] && IsBlank(s[..|s| - |u|]) && (u == [] || !IsWhitespace(u[0]))
    requires |r| <= |u| && r == u[..|r|] && IsBlank(u[|r|..]) && (r == [] || !IsWhitespace(r[|r| - 1]))
    ensures r == [] <==> IsBlank(s)
    ensures r != [] ==> !IsWhitespace(r[0]) && !IsWhitespace(r[|r| - 1])
  {
    if r == [] {
      TrimmedAway(s, u);
    } else {
      assert r[0] == u[0] == s[|s| - |u|];
    }
  }

  /** When `trimEnd()` removes everything, `trimStart()` already had. */
  lemma TrimmedAway(s: string, u: string)
    requires |u| <= |s| && IsBlank(s[..|s| - |u|]) && (u == [] || !IsWhitespace(u[0]))
    requires IsBlank(u[0..])
    ensures IsBlank(s)
  {
    assert u[0..] == u;
    assert s[..|s|] == s;
  }

  /**
   * `split(" ")`: the pieces of `s` between single spaces, in order; empty pieces are
   * kept, so there is always one more piece than there are spaces.
   */
  function Split(s: string): (r: seq<string>)
    ensures |r| >= 1
    ensures forall i :: 0 <= i < |r| ==> ' ' !in r[i]
  {
    if s == [] then [""]
    else
      var rest := Split(s[1..]);
      if s[0] == ' ' then [""] + rest
      else [[s[0]] + rest[0]] + rest[1..]
  }

  /** Every piece followed by one space, the chunk shape `emit("$word ")` produces. */
  function SpaceTerminated(words: seq<string>): (r: seq<string>)
    ensures |r| == |words|
    ensures forall i :: 0 <= i < |words| ==> r[i] == words[i] + " "
  {
    if words == [] then [] else [words[0] + " "] + SpaceTerminated(words[1..])
  }

  /** The concatenation of all pieces, in order. */
  function Flatten(parts: seq<string>): string {
    if parts == [] then "" else parts[0] + Flatten(parts[1..])
  }

  lemma {:induction false} FlattenAppend(parts: seq<string>, last: string)
    ensures Flatten(parts + [last]) == Flatten(parts) + last
  {
    if parts != [] {
      assert (parts + [last])[1..] == parts[1..] + [last];
      FlattenAppend(parts[1..], last);
    }
  }

  /**
   * Splitting at spaces and re-emitting every piece followed by a space gives back
   * the text with one extra space at the end: no character is lost or reordered.
   */
  lemma {:induction false} SplitRoundTrip(s: string)
    ensures Flatten(SpaceTerminated(Split(s))) == s + " "
  {
    if s != [] {
      var rest := Split(s[1..]);
      SplitRoundTrip(s[1..]);
      if s[0] == ' ' {
        assert ([""] + rest)[1..] == rest;
        assert s == [' '] + s[1..];
      } else {
        var head := [s[0]] + rest[0];
        var tail := Flatten(SpaceTerminated(rest[1..]));
        assert ([head] + rest[1..])[1..] == rest[1..];
        assert Flatten(SpaceTerminated(Split(s))) == head + " " + tail;
        assert SpaceTerminated(rest)[1..] == SpaceTerminated(rest[1..]);
        assert Flatten(SpaceTerminated(rest)) == rest[0] + " " + tail;
        assert head + " " + tail == [s[0]] + (rest[0] + " " + tail);
        assert s == [s[0]] + s[1..];
      }
    }
  }

  /** `Char.lowercaseChar()` restricted to ASCII letters. */
  function LowerChar(c: char): char {
    if 'A' <= c <= 'Z' then (c as int + 32) as char else c
  }

  /** `lowercase()`: every ASCII capital replaced by its small letter, length kept. */
  function Lowercase(s: string): (r: string)
    ensures |r| == |s|
    ensures forall i :: 0 <= i < |s| ==> r[i] == LowerChar(s[i])
  {
    if s == [] then [] else [LowerChar(s[0])] + Lowercase(s[1..])
  }

  /** `StringBuilder.appendLine(s)`: `s` followed by a line feed. */
  function Line(s: string): string {
    s + "\n"
  }

  /** `part` occurs in `s` starting at offset `i`. */
  predicate OccursAt(s: string, part: string, i: int) {
    0 <= i <= |s| - |part| && s[i..i + |part|] == part
  }

  /** `part in s`: `part` occurs in `s` at some offset. */
  predicate Contains(s: string, part: string) {
    exists i | 0 <= i <= |s| - |part| :: OccursAt(s, part, i)
  }

  predicate StartsWith(s: string, prefix: string) {
    |prefix| <= |s| && s[..|prefix|] == prefix
  }

  predicate EndsWith(s: string, suffix: string) {
    |suffix| <= |s| && s[|s| - |suffix|..] == suffix
  }

  /** Concatenation is associative. */
  lemma ConcatAssoc<T>(a: seq<T>, b: seq<T>, c: seq<T>)
    ensures (a + b) + c == a + (b + c)
  {
  }

  lemma StartsWithConcat(a: string, b: string)
    ensures StartsWith(a + b, a)
  {
    assert (a + b)[..|a|] == a;
  }

  lemma EndsWithConcat(a: string, b: string)
    ensures EndsWith(a + b, b)
  {
    assert (a + b)[|a|..] == b;
  }

  lemma StartsWithAppend(s: string, prefix: string, more: string)
    requires StartsWith(s, prefix)
    ensures StartsWith(s + more, prefix)
  {
    assert (s + more)[..|prefix|] == s[..|prefix|];
  }

  lemma ContainsMiddle(a: string, part: string, b: string)
    ensures Contains(a + part + b, part)
  {
    assert (a + part + b)[|a|..|a| + |part|] == part;
    assert OccursAt(a + part + b, part, |a|);
  }

  lemma ContainsSelf(s: string)
    ensures Contains(s, s)
  {
    assert OccursAt(s, s, 0);
  }

  lemma ContainsInLeft(a: string, b: string, part: string)
    requires Contains(a, part)
    ensures Contains(a + b, part)
  {
    var i :| 0 <= i <= |a| - |part| && OccursAt(a, part, i);
    assert (a + b)[i..i + |part|] == a[i..i + |part|];
    assert OccursAt(a + b, part, i);
  }

  lemma ContainsInRight(a: string, b: string, part: string)
    requires Contains(b, part)
    ensures Contains(a + b, part)
  {
    var i :| 0 <= i <= |b| - |part| && OccursAt(b, part, i);
    assert (a + b)[|a| + i..|a| + i + |part|] == b[i..i + |part|];
    assert OccursAt(a + b, part, |a| + i);
  }

  /** The text of every element of `xs`, one after another in order (a `forEach` of appends). */
  function Joined<T>(xs: seq<T>, text: T -> string): string {
    if xs == [] then "" else Joined(xs[..|xs| - 1], text) + text(xs[|xs| - 1])
  }

  /** A `forEach` that appends the text of each element of `xs`, in order, to `start`. */
  method AppendEach<T>(start: string, xs: seq<T>, text: T -> string) returns (r: string)
    ensures r == start + Joined(xs, text)
  {
    r := start;
    var i := 0;
    while i < |xs|
      invariant 0 <= i <= |xs|
      invariant r == start + Joined(xs[..i], text)
    {
      assert xs[..i + 1][..i] == xs[..i];
      r := r + text(xs[i]);
      i := i + 1;
    }
    assert xs[..i] == xs;
  }

  /** Every element's text occurs in the joined text. */
  lemma {:induction false} JoinedContains<T>(xs: seq<T>, text: T -> string, i: nat)
    requires i < |xs|
    ensures Contains(Joined(xs, text), text(xs[i]))
  {
    var prefix := xs[..|xs| - 1];
    if i == |xs| - 1 {
      ContainsSelf(text(xs[i]));
      ContainsInRight(Joined(prefix, text), text(xs[i]), text(xs[i]));
    } else {
      assert prefix[i] == xs[i];
      JoinedContains(prefix, text, i);
      ContainsInLeft(Joined(prefix, text), text(xs[|xs| - 1]), text(xs[i]));
    }
  }

  /** The index of the last `c` in `s`, or -1 when there is none. */
  function LastIndexOf(s: string, c: char): (r: int)
    ensures -1 <= r < |s|
    ensures r >= 0 ==> s[r] == c
    ensures forall i :: r < i < |s| ==> s[i] != c
  {
    if s == [] then -1
    else if s[|s| - 1] == c then |s| - 1
    else LastIndexOf(s[..|s| - 1], c)
  }

  /** `substringAfterLast(c, missing)`. */
  function AfterLast(s: string, c: char, missing: string): (r: string)
    ensures c in s ==> c !in r && EndsWith(s, r)
    ensures c !in s ==> r == missing
  {
    var i := LastIndexOf(s, c);
    if i < 0 then missing else s[i + 1..]
  }

  /** `substringBeforeLast(c, missing)`. */
  function BeforeLast(s: string, c: char, missing: string): (r: string)
    ensures c in s ==> StartsWith(s, r) && |r| < |s| && s[|r|] == c
    ensures c !in s ==> r == missing
  {
    var i := LastIndexOf(s, c);
    if i < 0 then missing else s[..i]
  }
}
