/**
  Cue-text extraction from a WebVTT caption file (W3C WebVTT, section 4.1
  "WebVTT file structure").  A file is a sequence of blocks separated by
  blank lines: the first block is the header beginning with "WEBVTT"; a
  block whose first line is "NOTE" (alone or followed by a space or a tab) is
  a comment; a cue block holds an optional identifier line, a timing line
  containing "-->", and the cue's text lines.  Only the cue text lines are
  kept; every other block, and any block that matches none of these shapes,
  is skipped.
*/
module WebVtt {
  import opened Wrappers
  import opened Text

  const HEADER := "WEBVTT"
  const ARROW := "-->"

  /** First line of a comment block. */
  predicate IsNote(line: string) {
    line == "NOTE" || StartsWith(line, "NOTE ") || StartsWith(line, "NOTE\t")
  }

  /** A cue timing line such as "00:00:09.240 --> 00:00:11.010". */
  predicate IsTiming(line: string) {
    Contains(line, ARROW)
  }

  /** Number of non-blank lines at the front of `lines`. */
  function RunLength(lines: seq<string>): (n: nat)
    ensures n <= |lines|
    ensures forall i :: 0 <= i < n ==> lines[i] != ""
    ensures n < |lines| ==> lines[n] == ""
  {
    if lines == [] || lines[0] == "" then 0 else 1 + RunLength(lines[1..])
  }

  /** The maximal runs of non-blank lines, in order. */
  function Blocks(lines: seq<string>): (bs: seq<seq<string>>)
    ensures forall i :: 0 <= i < |bs| ==> |bs[i]| >= 1
    decreases |lines|
  {
    if lines == [] then []
    else if lines[0] == "" then Blocks(lines[1..])
    else
      var n := RunLength(lines);
      [lines[..n]] + Blocks(lines[n..])
  }

  /** The text lines of a cue block, or None for any other block. */
  function CueText(block: seq<string>): Option<seq<string>> {
    if block == [] || IsNote(block[0]) then None
    else if IsTiming(block[0]) then Some(block[1..])
    else if |block| >= 2 && IsTiming(block[1]) then Some(block[2..])
    else None
  }

  /** The texts of the cue blocks among `blocks`, in order. */
  function CueTexts(blocks: seq<seq<string>>): seq<seq<string>> {
    if blocks == [] then []
    else
      (match CueText(blocks[0]) case Some(t) => [t] case None => []) + CueTexts(blocks[1..])
  }

  /** The text lines of every cue of `caption`, cue by cue. */
  function Cues(caption: string): seq<seq<string>> {
    var blocks := Blocks(Lines(caption));
    if blocks != [] && StartsWith(blocks[0][0], HEADER) then CueTexts(blocks[1..])
    else CueTexts(blocks)
  }

  /** No line of a cue's text holds a line feed. */
  lemma {:induction false} CueTextsHaveNoNewline(blocks: seq<seq<string>>)
    requires forall i, j :: 0 <= i < |blocks| && 0 <= j < |blocks[i]| ==> NEWLINE !in blocks[i][j]
    ensures forall i, j :: 0 <= i < |CueTexts(blocks)| && 0 <= j < |CueTexts(blocks)[i]| ==>
      NEWLINE !in CueTexts(blocks)[i][j]
  {
    if blocks != [] {
      CueTextsHaveNoNewline(blocks[1..]);
    }
  }

  /** Every block is a run of lines of the input. */
  lemma {:induction false} BlocksAreMadeOfLines(lines: seq<string>)
    ensures forall i, j :: 0 <= i < |Blocks(lines)| && 0 <= j < |Blocks(lines)[i]| ==>
      Blocks(lines)[i][j] in lines
    decreases |lines|
  {
    if lines != [] {
      if lines[0] == "" {
        BlocksAreMadeOfLines(lines[1..]);
      } else {
        BlocksAreMadeOfLines(lines[RunLength(lines)..]);
      }
    }
  }

  /** The text lines of the cues of any caption hold no line feed. */
  lemma CuesHaveNoNewline(caption: string)
    ensures forall i, j :: 0 <= i < |Cues(caption)| && 0 <= j < |Cues(caption)[i]| ==>
      NEWLINE !in Cues(caption)[i][j]
  {
    var lines := Lines(caption);
    var blocks := Blocks(lines);
    BlocksAreMadeOfLines(lines);
    assert forall i, j :: 0 <= i < |blocks| && 0 <= j < |blocks[i]| ==> NEWLINE !in blocks[i][j];
    if blocks != [] && StartsWith(blocks[0][0], HEADER) {
      CueTextsHaveNoNewline(blocks[1..]);
    } else {
      CueTextsHaveNoNewline(blocks);
    }
  }

  // ---------------------------------------------------------------------
  // Rendering: the inverse direction, used to state the round trip.

  /** One cue: an optional identifier line, its timing line and its text lines. */
  datatype Cue = Cue(id: Option<string>, timing: string, text: seq<string>)

  /** A block after the header: a comment or a cue. */
  datatype Part = Note(lines: seq<string>) | Timed(cue: Cue)

  predicate NonBlankLines(lines: seq<string>) {
    forall i :: 0 <= i < |lines| ==> lines[i] != "" && NEWLINE !in lines[i]
  }

  /** The header block: a first line opening with "WEBVTT", then any further header lines. */
  predicate WellFormedHeader(head: seq<string>) {
    |head| >= 1 && StartsWith(head[0], HEADER) && NonBlankLines(head)
  }

  /** An identifier is one line that reads neither as a timing line nor as the start of a comment. */
  predicate WellFormedId(id: Option<string>) {
    id.Some? ==> id.value != "" && NEWLINE !in id.value && !IsTiming(id.value) && !IsNote(id.value)
  }

  predicate WellFormedCue(c: Cue) {
    WellFormedId(c.id) && IsTiming(c.timing) && !IsNote(c.timing) && NEWLINE !in c.timing
    && NonBlankLines(c.text)
  }

  /** A comment block: lines of which the first opens a NOTE. */
  predicate WellFormedNote(lines: seq<string>) {
    |lines| >= 1 && IsNote(lines[0]) && NonBlankLines(lines)
  }

  predicate WellFormedPart(p: Part) {
    match p
    case Note(lines) => WellFormedNote(lines)
    case Timed(c) => WellFormedCue(c)
  }

  /** The lines of a cue block: the identifier if any, the timing line, the text. */
  function CueBlock(c: Cue): seq<string> {
    (if c.id.Some? then [c.id.value] else []) + ([c.timing] + c.text)
  }

  function BlockOf(p: Part): seq<string> {
    match p
    case Note(lines) => lines
    case Timed(c) => CueBlock(c)
  }

  /** The lines of the parts, each block preceded by the blank line that separates it. */
  function PartLines(parts: seq<Part>): seq<string> {
    if parts == [] then [] else [""] + (BlockOf(parts[0]) + PartLines(parts[1..]))
  }

  /** The blocks that `PartLines` is made of. */
  function PartBlocks(parts: seq<Part>): seq<seq<string>> {
    if parts == [] then [] else [BlockOf(parts[0])] + PartBlocks(parts[1..])
  }

  /** The text of each cue among the parts, in order; comments have none. */
  function Texts(parts: seq<Part>): seq<seq<string>> {
    if parts == [] then []
    else (match parts[0] case Note(_) => [] case Timed(c) => [c.text]) + Texts(parts[1..])
  }

  /** The lines of a rendered file, before they are joined with line feeds. */
  function RenderLines(head: seq<string>, parts: seq<Part>): seq<string> {
    head + PartLines(parts)
  }

  /** A WebVTT file: the header block, then comment and cue blocks in any order. */
  function Render(head: seq<string>, parts: seq<Part>): string {
    Unlines(RenderLines(head, parts))
  }

  lemma {:induction false} RunLengthOfBlock(b: seq<string>, rest: seq<string>)
    requires forall i :: 0 <= i < |b| ==> b[i] != ""
    requires rest == [] || rest[0] == ""
    ensures RunLength(b + rest) == |b|
  {
    if b != [] {
      assert (b + rest)[1..] == b[1..] + rest;
      RunLengthOfBlock(b[1..], rest);
    } else {
      assert b + rest == rest;
    }
  }

  lemma BlocksSplit(b: seq<string>, rest: seq<string>)
    requires |b| >= 1 && forall i :: 0 <= i < |b| ==> b[i] != ""
    requires rest == [] || rest[0] == ""
    ensures Blocks(b + rest) == [b] + Blocks(rest)
  {
    RunLengthOfBlock(b, rest);
    assert (b + rest)[..|b|] == b;
    assert (b + rest)[|b|..] == rest;
  }

  lemma BlocksSkipBlank(rest: seq<string>)
    ensures Blocks([""] + rest) == Blocks(rest)
  {
    assert ([""] + rest)[1..] == rest;
  }

  /** The block of a well-formed part is a run of non-blank lines without line feeds. */
  lemma BlockOfIsNonBlank(p: Part)
    requires WellFormedPart(p)
    ensures |BlockOf(p)| >= 1 && NonBlankLines(BlockOf(p))
  {
    if p.Timed? {
      var c := p.cue;
      assert c.timing != "" by {
        var i :| 0 <= i <= |c.timing| - |ARROW| && OccursAt(c.timing, ARROW, i);
      }
      var tail := [c.timing] + c.text;
      assert NonBlankLines(tail) by {
        forall i | 0 <= i < |tail| ensures tail[i] != "" && NEWLINE !in tail[i] {
          if i > 0 {
            assert tail[i] == c.text[i - 1];
          }
        }
      }
      if c.id.Some? {
        var b := [c.id.value] + tail;
        forall i | 0 <= i < |b| ensures b[i] != "" && NEWLINE !in b[i] {
          if i > 0 {
            assert b[i] == tail[i - 1];
          }
        }
      } else {
        assert CueBlock(c) == tail;
      }
    }
  }

  lemma {:induction false} BlocksOfPartLines(b: seq<string>, parts: seq<Part>)
    requires |b| >= 1 && forall i :: 0 <= i < |b| ==> b[i] != ""
    requires forall k :: 0 <= k < |parts| ==> WellFormedPart(parts[k])
    ensures Blocks(b + PartLines(parts)) == [b] + PartBlocks(parts)
    decreases parts
  {
    BlocksSplit(b, PartLines(parts));
    if parts != [] {
      var next := BlockOf(parts[0]);
      BlockOfIsNonBlank(parts[0]);
      BlocksSkipBlank(next + PartLines(parts[1..]));
      BlocksOfPartLines(next, parts[1..]);
    }
  }

  /** A comment block gives no cue; a cue block gives its text, with or without an identifier. */
  lemma CueTextOfPart(p: Part)
    requires WellFormedPart(p)
    ensures CueText(BlockOf(p)) == match p case Note(_) => None case Timed(c) => Some(c.text)
  {
    match p
    case Note(lines) =>
    case Timed(c) =>
      var tail := [c.timing] + c.text;
      assert tail[1..] == c.text;
      if c.id.Some? {
        var b := [c.id.value] + tail;
        assert b[0] == c.id.value && b[1] == c.timing;
        assert b[2..] == c.text;
      } else {
        assert CueBlock(c) == tail;
      }
  }

  lemma {:induction false} CueTextsOfPartBlocks(parts: seq<Part>)
    requires forall k :: 0 <= k < |parts| ==> WellFormedPart(parts[k])
    ensures CueTexts(PartBlocks(parts)) == Texts(parts)
  {
    if parts != [] {
      CueTextOfPart(parts[0]);
      assert PartBlocks(parts)[1..] == PartBlocks(parts[1..]);
      CueTextsOfPartBlocks(parts[1..]);
    }
  }

  lemma {:induction false} PartLinesHaveNoNewline(parts: seq<Part>)
    requires forall k :: 0 <= k < |parts| ==> WellFormedPart(parts[k])
    ensures forall i :: 0 <= i < |PartLines(parts)| ==> NEWLINE !in PartLines(parts)[i]
  {
    if parts != [] {
      BlockOfIsNonBlank(parts[0]);
      PartLinesHaveNoNewline(parts[1..]);
      var b, rest := BlockOf(parts[0]), PartLines(parts[1..]);
      assert PartLines(parts) == [""] + (b + rest);
      forall i | 0 <= i < |PartLines(parts)| ensures NEWLINE !in PartLines(parts)[i] {
        if 1 <= i < 1 + |b| {
          assert PartLines(parts)[i] == b[i - 1];
        } else if i > |b| {
          assert PartLines(parts)[i] == rest[i - 1 - |b|];
        }
      }
    }
  }

  lemma LinesOfRender(head: seq<string>, parts: seq<Part>)
    requires WellFormedHeader(head)
    requires forall k :: 0 <= k < |parts| ==> WellFormedPart(parts[k])
    ensures Lines(Render(head, parts)) == RenderLines(head, parts)
  {
    var lines := RenderLines(head, parts);
    PartLinesHaveNoNewline(parts);
    forall i | 0 <= i < |lines| ensures NEWLINE !in lines[i] {
      if i >= |head| {
        assert lines[i] == PartLines(parts)[i - |head|];
      }
    }
    LinesOfUnlines(lines);
  }

  /** A file whose first block is a header yields the cues of the remaining blocks. */
  lemma CuesOfHeaded(caption: string, head: seq<string>, rest: seq<seq<string>>)
    requires Blocks(Lines(caption)) == [head] + rest
    requires WellFormedHeader(head)
    ensures Cues(caption) == CueTexts(rest)
  {
    assert ([head] + rest)[1..] == rest;
  }

  /**
    Round trip: extracting the cues of a rendered WebVTT file gives back the
    text of every cue, in order; the header, the comment blocks, the cue
    identifiers and the timing lines leave no trace.
  */
  lemma {:induction false} CuesOfRender(head: seq<string>, parts: seq<Part>)
    requires WellFormedHeader(head)
    requires forall k :: 0 <= k < |parts| ==> WellFormedPart(parts[k])
    ensures Cues(Render(head, parts)) == Texts(parts)
  {
    assert Blocks(Lines(Render(head, parts))) == [head] + PartBlocks(parts) by {
      LinesOfRender(head, parts);
      BlocksOfPartLines(head, parts);
    }
    CuesOfHeaded(Render(head, parts), head, PartBlocks(parts));
    CueTextsOfPartBlocks(parts);
  }
}
