/** The string operations the gateway relies on: leftmost search and trimming. */
module Text {
  import opened Common

  predicate OccursAt(s: string, pattern: string, i: int) {
    0 <= i && i + |pattern| <= |s| && s[i..i + |pattern|] == pattern
  }

  /** Index of the leftmost occurrence at or after `from`. */
  function Find(s: string, pattern: string, from: nat := 0): (found: Option<nat>)
    ensures match found
            case Some(i) => from <= i && OccursAt(s, pattern, i) && forall j | from <= j < i :: !OccursAt(s, pattern, j)
            case None => forall j | from <= j :: !OccursAt(s, pattern, j)
    decreases |s| - from
  {
    if from + |pattern| > |s| then None
    else if OccursAt(s, pattern, from) then Some(from)
    else Find(s, pattern, from + 1)
  }

  lemma FoundIsFound(s: string, pattern: string, i: nat, from: nat := 0)
    requires from <= i && OccursAt(s, pattern, i) && forall j | from <= j < i :: !OccursAt(s, pattern, j)
    ensures Find(s, pattern, from) == Some(i)
    decreases i - from
  {
    if from == i {
    } else {
      FoundIsFound(s, pattern, i, from + 1);
    }
  }

  lemma SlicesJoin(s: string, i: nat, j: nat)
    requires i <= j <= |s|
    ensures s[..j] == s[..i] + s[i..j]
  {
  }

  predicate StartsWith(s: string, prefix: string) {
    prefix <= s
  }

  function Concat(parts: seq<string>): string {
    if parts == [] then "" else Concat(parts[..|parts| - 1]) + parts[|parts| - 1]
  }

  lemma ConcatPush(parts: seq<string>, last: string)
    ensures Concat(parts + [last]) == Concat(parts) + last
  {
    assert (parts + [last])[..|parts|] == parts;
  }

  /** What stands before and after the first `c`; all of it and nothing without one. */
  function Cut(s: string, c: char): (parts: (string, string))
    ensures c !in parts.0
  {
    if s == "" then ("", "")
    else if s[0] == c then ("", s[1..])
    else var (before, after) := Cut(s[1..], c); ([s[0]] + before, after)
  }

  lemma {:induction false} CutsAtFirst(before: string, c: char, after: string)
    requires c !in before
    ensures Cut(before + [c] + after, c) == (before, after)
  {
    var s := before + [c] + after;
    if before == "" {
      assert s[1..] == after;
    } else {
      assert before[0] in before && s[1..] == before[1..] + [c] + after;
      CutsAtFirst(before[1..], c, after);
      assert [before[0]] + before[1..] == before;
    }
  }

  function TrimLeft(s: string, space: char -> bool): string {
    if s != [] && space(s[0]) then TrimLeft(s[1..], space) else s
  }

  function TrimRight(s: string, space: char -> bool): string {
    if s != [] && space(s[|s| - 1]) then TrimRight(s[..|s| - 1], space) else s
  }

  function Trim(s: string, space: char -> bool): string {
    TrimRight(TrimLeft(s, space), space)
  }

  /** Nothing to trim at either end. */
  ghost predicate Tight(s: string, space: char -> bool) {
    s != [] ==> !space(s[0]) && !space(s[|s| - 1])
  }

  lemma TrimLeftStarts(s: string, space: char -> bool)
    ensures TrimLeft(s, space) != [] ==> !space(TrimLeft(s, space)[0])
    ensures |TrimLeft(s, space)| <= |s|
  {
  }

  lemma TrimRightEnds(s: string, space: char -> bool)
    ensures var r := TrimRight(s, space);
            (r != [] ==> !space(r[|r| - 1]) && s != [] && r[0] == s[0]) && |r| <= |s|
  {
  }

  lemma TrimIsTight(s: string, space: char -> bool)
    ensures Tight(Trim(s, space), space)
  {
    TrimLeftStarts(s, space);
    TrimRightEnds(TrimLeft(s, space), space);
  }

  lemma TightIsTrimmed(s: string, space: char -> bool)
    requires Tight(s, space)
    ensures Trim(s, space) == s
  {
  }

  /** Characters that str.strip removes in Python. */
  predicate PythonSpace(c: char) {
    '\t' <= c <= '\r' || '\U{1c}' <= c <= ' ' || c == '\U{85}' || c == '\U{a0}' || c == '\U{1680}' ||
    '\U{2000}' <= c <= '\U{200a}' || c == '\U{2028}' || c == '\U{2029}' || c == '\U{202f}' || c == '\U{205f}' || c == '\U{3000}'
  }

  /** str.strip */
  function Strip(s: string): string {
    Trim(s, PythonSpace)
  }

  /** The code points that Python takes for white space. */
  lemma PythonSpaces(c: char)
    ensures PythonSpace(c) <==>
            c as int in {0x9, 0xa, 0xb, 0xc, 0xd, 0x1c, 0x1d, 0x1e, 0x1f, 0x20, 0x85, 0xa0, 0x1680, 0x2000, 0x2001, 0x2002, 0x2003, 0x2004,
                         0x2005, 0x2006, 0x2007, 0x2008, 0x2009, 0x200a, 0x2028, 0x2029, 0x202f, 0x205f, 0x3000}
  {
  }

  /** What stands between provider and model in a qualified selector. */
  const SEPARATOR := "::"

  /** Characters that String.prototype.trim removes in JavaScript. */
  predicate ScriptSpace(c: char) {
    '\t' <= c <= '\r' || c == ' ' || c == '\U{a0}' || c == '\U{1680}' || '\U{2000}' <= c <= '\U{200a}' ||
    c == '\U{2028}' || c == '\U{2029}' || c == '\U{202f}' || c == '\U{205f}' || c == '\U{3000}' || c == '\U{feff}'
  }

  /** The code points that JavaScript takes for white space; unlike Python it counts the byte order mark and
      not the separators and the next-line character. */
  lemma ScriptSpaces(c: char)
    ensures ScriptSpace(c) <==> c == '\U{feff}' || (PythonSpace(c) && c as int !in {0x1c, 0x1d, 0x1e, 0x1f, 0x85})
  {
  }
}
