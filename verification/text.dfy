/**
  Plain string helpers used by the caption parsers: splitting a text into its
  lines, joining pieces with a separator, and prefix tests.  Lines follow
  the semantics of splitting on a line feed: the empty text has one empty
  line, and a trailing line feed yields a trailing empty line.
*/
module Text {

  const NEWLINE: char := '\n'

  /** `parts` joined with `sep` between consecutive parts. */
  function Join(parts: seq<string>, sep: string): (r: string)
    ensures forall c :: c !in sep && (forall i :: 0 <= i < |parts| ==> c !in parts[i]) ==> c !in r
    ensures |parts| == 1 ==> r == parts[0]
  {
    if |parts| == 0 then ""
    else if |parts| == 1 then parts[0]
    else parts[0] + sep + Join(parts[1..], sep)
  }

  /** The lines of `s`: the maximal pieces between line feeds. */
  function Lines(s: string): (ls: seq<string>)
    ensures |ls| >= 1
    ensures forall i :: 0 <= i < |ls| ==> NEWLINE !in ls[i]
    decreases |s|
  {
    if s == [] then [""]
    else
      var rest := Lines(s[1..]);
      if s[0] == NEWLINE then [""] + rest
      else [[s[0]] + rest[0]] + rest[1..]
  }

  /** Inverse of `Lines`: the lines put back together with line feeds. */
  function Unlines(ls: seq<string>): string {
    Join(ls, [NEWLINE])
  }

  lemma UnlinesCons(line: string, rest: seq<string>)
    requires |rest| >= 1
    ensures Unlines([line] + rest) == line + [NEWLINE] + Unlines(rest)
  {
    assert ([line] + rest)[1..] == rest;
  }

  lemma {:induction false} UnlinesSnoc(ls: seq<string>, line: string)
    requires |ls| >= 1
    ensures Unlines(ls + [line]) == Unlines(ls) + [NEWLINE] + line
  {
    if |ls| == 1 {
      assert ls + [line] == [ls[0]] + [line];
      UnlinesCons(ls[0], [line]);
    } else {
      assert ls + [line] == [ls[0]] + (ls[1..] + [line]);
      UnlinesCons(ls[0], ls[1..] + [line]);
      UnlinesSnoc(ls[1..], line);
      UnlinesCons(ls[0], ls[1..]);
      assert [ls[0]] + ls[1..] == ls;
    }
  }

  predicate StartsWith(s: string, prefix: string) {
    |prefix| <= |s| && s[..|prefix|] == prefix
  }

  /** True when `pattern` occurs in `s` starting at index `i`. */
  predicate OccursAt(s: string, pattern: string, i: int) {
    0 <= i <= |s| - |pattern| && s[i..i + |pattern|] == pattern
  }

  /** True when `pattern` occurs somewhere in `s`. */
  predicate Contains(s: string, pattern: string) {
    exists i | 0 <= i <= |s| - |pattern| :: OccursAt(s, pattern, i)
  }

  /** All the pieces of all the groups, group after group. */
  function Flatten(groups: seq<seq<string>>): (r: seq<string>)
    ensures forall x :: x in r <==> exists i :: 0 <= i < |groups| && x in groups[i]
  {
    if groups == [] then [] else groups[0] + Flatten(groups[1..])
  }

  /** Splitting a line followed by a line feed and more text. */
  lemma {:induction false} LinesCons(line: string, rest: string)
    requires NEWLINE !in line
    ensures Lines(line + [NEWLINE] + rest) == [line] + Lines(rest)
    decreases |line|
  {
    if line == [] {
      assert line + [NEWLINE] + rest == [NEWLINE] + rest;
      assert ([NEWLINE] + rest)[1..] == rest;
    } else {
      var s := line + [NEWLINE] + rest;
      assert s[0] == line[0];
      assert s[1..] == line[1..] + [NEWLINE] + rest;
      LinesCons(line[1..], rest);
      assert [line[0]] + line[1..] == line;
    }
  }

  /** A text without line feeds is a single line. */
  lemma {:induction false} LinesSingle(line: string)
    requires NEWLINE !in line
    ensures Lines(line) == [line]
    decreases |line|
  {
    if line != [] {
      LinesSingle(line[1..]);
      assert [line[0]] + line[1..] == line;
    }
  }

  /** Joining lines that hold no line feed and splitting again gives them back. */
  lemma {:induction false} LinesOfUnlines(ls: seq<string>)
    requires |ls| >= 1
    requires forall i :: 0 <= i < |ls| ==> NEWLINE !in ls[i]
    ensures Lines(Unlines(ls)) == ls
  {
    if |ls| == 1 {
      LinesSingle(ls[0]);
    } else {
      assert Unlines(ls) == ls[0] + [NEWLINE] + Unlines(ls[1..]);
      LinesCons(ls[0], Unlines(ls[1..]));
      LinesOfUnlines(ls[1..]);
      assert [ls[0]] + ls[1..] == ls;
    }
  }
}
