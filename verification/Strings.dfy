/** The string operations of Go's standard library that the engine uses, with
    the properties that pin them down. */
module Strings {

  /** Where `c` first occurs, or the length of `s`. */
  function IndexOf(s: string, c: char): (i: nat)
    ensures i <= |s| && c !in s[..i]
    ensures i < |s| ==> s[i] == c
  {
    if s == "" || s[0] == c then 0
    else
      assert forall i :: 0 <= i < |s| - 1 ==> s[..i + 1] == [s[0]] + s[1..][..i];
      1 + IndexOf(s[1..], c)
  }

  lemma {:induction false} IndexOfFirst(a: string, c: char, b: string)
    requires c !in a
    ensures IndexOf(a + [c] + b, c) == |a|
  {
    var s := a + [c] + b;
    if a != "" {
      assert s[1..] == a[1..] + [c] + b;
      IndexOfFirst(a[1..], c, b);
    }
  }

  function Join(parts: seq<string>, c: char): string {
    if parts == [] then ""
    else if |parts| == 1 then parts[0]
    else parts[0] + [c] + Join(parts[1..], c)
  }

  /** `strings.Split` on a single character. */
  function Split(s: string, c: char): (parts: seq<string>)
    ensures |parts| >= 1 && forall p :: p in parts ==> c !in p
    ensures Join(parts, c) == s
    decreases |s|
  {
    var i := IndexOf(s, c);
    if i == |s| then
      assert s[..i] == s;
      [s]
    else
      var rest := Split(s[i + 1..], c);
      assert ([s[..i]] + rest)[1..] == rest;
      [s[..i]] + rest
  }

  /** Splitting is the only way to cut a string at every `c` and nowhere else. */
  lemma {:induction false} SplitIsUnique(parts: seq<string>, c: char)
    requires |parts| >= 1 && forall p :: p in parts ==> c !in p
    ensures Split(Join(parts, c), c) == parts
  {
    var s := Join(parts, c);
    if |parts| == 1 {
      assert parts[0] in parts;
      assert IndexOf(s, c) == |s|;
      assert s[..|s|] == s;
    } else {
      var tail := Join(parts[1..], c);
      IndexOfFirst(parts[0], c, tail);
      assert s[..|parts[0]|] == parts[0] && s[|parts[0]| + 1..] == tail;
      SplitIsUnique(parts[1..], c);
    }
  }

  /** `unicode.IsSpace`. */
  predicate IsSpace(c: char) {
    c == ' ' || '\U{0009}' <= c <= '\U{000D}' || c == '\U{0085}' || c == '\U{00A0}' || c == '\U{1680}'
    || '\U{2000}' <= c <= '\U{200A}' || c == '\U{2028}' || c == '\U{2029}' || c == '\U{202F}' || c == '\U{205F}' || c == '\U{3000}'
  }

  /** These are the characters Unicode calls white space. */
  lemma SpacesAreThese(c: char)
    ensures (c in "\t\n\U{000B}\U{000C}\r \U{0085}\U{00A0}\U{1680}"
             || c in "\U{2000}\U{2001}\U{2002}\U{2003}\U{2004}\U{2005}\U{2006}\U{2007}\U{2008}\U{2009}\U{200A}"
             || c in "\U{2028}\U{2029}\U{202F}\U{205F}\U{3000}") <==> IsSpace(c)
  {
  }

  predicate Blank(s: string) {
    forall i | 0 <= i < |s| :: IsSpace(s[i])
  }

  function Leading(s: string): (n: nat)
    ensures n <= |s| && Blank(s[..n]) && (n < |s| ==> !IsSpace(s[n]))
  {
    if s == "" || !IsSpace(s[0]) then 0
    else
      assert forall i :: 0 <= i < |s| - 1 ==> s[..i + 1] == [s[0]] + s[1..][..i];
      1 + Leading(s[1..])
  }

  lemma OneMoreTrailing(s: string, n: nat)
    requires n < |s| && IsSpace(s[|s| - 1]) && Blank(s[..|s| - 1][|s| - 1 - n..])
    ensures Blank(s[|s| - (n + 1)..])
  {
    var t, rest := s[|s| - (n + 1)..], s[..|s| - 1][|s| - 1 - n..];
    assert t == rest + [s[|s| - 1]];
    forall i | 0 <= i < |t| ensures IsSpace(t[i]) {
      if i < n {
        assert t[i] == rest[i];
      }
    }
  }

  function Trailing(s: string): (n: nat)
    ensures n <= |s| && Blank(s[|s| - n..]) && (n < |s| ==> !IsSpace(s[|s| - n - 1]))
  {
    if s == "" || !IsSpace(s[|s| - 1]) then 0
    else
      var n := Trailing(s[..|s| - 1]);
      OneMoreTrailing(s, n);
      n + 1
  }

  /** `t` is what lies between the blanks at either end of `s`. */
  ghost predicate Trimmed(s: string, t: string) {
    && (t != "" ==> !IsSpace(t[0]) && !IsSpace(t[|t| - 1]))
    && exists a: nat :: Surrounds(s, a, t)
  }

  ghost predicate Surrounds(s: string, a: nat, t: string) {
    a + |t| <= |s| && Blank(s[..a]) && s[a..a + |t|] == t && Blank(s[a + |t|..])
  }

  /** `strings.TrimSpace`. */
  function TrimSpace(s: string): string {
    var rest := s[Leading(s)..];
    rest[..|rest| - Trailing(rest)]
  }

  lemma {:induction false} TrimSpaceTrims(s: string)
    ensures Trimmed(s, TrimSpace(s))
  {
    var n := Leading(s);
    var rest := s[n..];
    var m := Trailing(rest);
    var t := rest[..|rest| - m];
    assert s[n + |t|..] == rest[|rest| - m..] && s[n..n + |t|] == t;
    assert Surrounds(s, n, t);
  }

  lemma TrimKeepsOut(s: string, c: char)
    requires c !in s
    ensures c !in TrimSpace(s)
  {
  }

  /** `strings.Contains`. */
  predicate Contains(s: string, sub: string) {
    exists i | 0 <= i <= |s| :: OccursAt(s, sub, i)
  }

  predicate OccursAt(s: string, sub: string, i: nat) {
    i + |sub| <= |s| && s[i..i + |sub|] == sub
  }

  /** A character-by-character mapping, such as `strings.ToLower`. */
  function Map(f: char -> char, s: string): (t: string)
    ensures |t| == |s| && forall i :: 0 <= i < |s| ==> t[i] == f(s[i])
  {
    seq(|s|, i requires 0 <= i < |s| => f(s[i]))
  }
}
