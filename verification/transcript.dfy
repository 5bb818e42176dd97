/**
  Transcript generation: a caption file tagged with its format is turned
  into one plain-text transcript.  The format tag selects a parser; each
  parser yields the cues of the file, each cue as its text lines; the
  transcript is every text line of every cue, in order, joined by a single
  space.  WebVTT is parsed by the WebVtt module; the SubRip, SubViewer and
  SubStation Alpha parsers are given as parameters.
*/
module Transcript {
  import opened Wrappers
  import opened Text
  import opened Errors
  import WebVtt

  datatype Format = Vtt | Srt | Sbv | Ssa

  /** The tag a caller uses for each format; tags are matched case-sensitively. */
  function Tag(f: Format): string {
    match f
    case Vtt => "vtt"
    case Srt => "srt"
    case Sbv => "sbv"
    case Ssa => "ssa"
  }

  /** The format a tag selects, if any. */
  function FormatOf(tag: string): (r: Option<Format>)
    ensures r.Some? ==> Tag(r.value) == tag
  {
    if tag == "vtt" then Some(Vtt)
    else if tag == "srt" then Some(Srt)
    else if tag == "sbv" then Some(Sbv)
    else if tag == "ssa" then Some(Ssa)
    else None
  }

  /** Every format is selected by its own tag. */
  lemma FormatOfTag(f: Format)
    ensures FormatOf(Tag(f)) == Some(f)
  {
  }

  /** Cue parsers for the formats other than WebVTT: cues, each as its text lines. */
  datatype CaptionParsers = CaptionParsers(
    srt: string -> seq<seq<string>>,
    sbv: string -> seq<seq<string>>,
    ssa: string -> seq<seq<string>>)

  function CuesOf(f: Format, caption: string, parsers: CaptionParsers): seq<seq<string>> {
    match f
    case Vtt => WebVtt.Cues(caption)
    case Srt => parsers.srt(caption)
    case Sbv => parsers.sbv(caption)
    case Ssa => parsers.ssa(caption)
  }

  const SPACE := " "

  /** The text lines of all the cues, in order, separated by single spaces. */
  function Concatenate(cues: seq<seq<string>>): string {
    Join(Flatten(cues), SPACE)
  }

  /**
    The transcript of `caption` read as the format named by `tag`.  An
    unknown tag fails with an error naming it; a known tag selects its own
    parser and the cue lines are joined by single spaces.  For WebVTT no
    line feed of the file survives, and an empty file gives an empty
    transcript.
  */
  function GenerateTranscript(caption: string, tag: string, parsers: CaptionParsers): (r: Result<string, Error>)
    ensures r.Failure? <==> FormatOf(tag).None?
    ensures r.Failure? ==> r.error == UnsupportedFormat(tag)
    ensures tag == Tag(Vtt) ==> r.Success? && NEWLINE !in r.value
    ensures tag == Tag(Vtt) && caption == "" ==> r == Success("")
    // each tag reads the file with its own parser and joins the cue lines by single spaces
    ensures tag == Tag(Vtt) ==> r == Success(Join(Flatten(WebVtt.Cues(caption)), SPACE))
    ensures tag == Tag(Srt) ==> r == Success(Join(Flatten(parsers.srt(caption)), SPACE))
    ensures tag == Tag(Sbv) ==> r == Success(Join(Flatten(parsers.sbv(caption)), SPACE))
    ensures tag == Tag(Ssa) ==> r == Success(Join(Flatten(parsers.ssa(caption)), SPACE))
  {
    match FormatOf(tag)
    case None => Failure(UnsupportedFormat(tag))
    case Some(f) =>
      var cues := CuesOf(f, caption, parsers);
      if f == Vtt then
        VttTranscriptHasNoNewline(caption);
        Success(Concatenate(cues))
      else
        Success(Concatenate(cues))
  }

  lemma VttTranscriptHasNoNewline(caption: string)
    ensures NEWLINE !in Concatenate(WebVtt.Cues(caption))
  {
    var cues := WebVtt.Cues(caption);
    WebVtt.CuesHaveNoNewline(caption);
    var parts := Flatten(cues);
    forall i | 0 <= i < |parts|
      ensures NEWLINE !in parts[i]
    {
      assert parts[i] in parts;
    }
  }

  /**
    Transcript of a rendered WebVTT file: the text lines of its cues, in
    order, joined by single spaces; the header, the comment blocks, the cue
    identifiers and the timing lines are dropped.
  */
  lemma VttTranscriptOfRender(head: seq<string>, parts: seq<WebVtt.Part>, parsers: CaptionParsers)
    requires WebVtt.WellFormedHeader(head)
    requires forall k :: 0 <= k < |parts| ==> WebVtt.WellFormedPart(parts[k])
    ensures GenerateTranscript(WebVtt.Render(head, parts), Tag(Vtt), parsers) ==
      Success(Concatenate(WebVtt.Texts(parts)))
  {
    WebVtt.CuesOfRender(head, parts);
  }

  /** The fake provider's WebVTT caption, written line by line. */
  const IOWA_CAPTION := "WEBVTT" + "\n" + "" + "\n" + "NOTE Paragraph" + "\n" + "" + "\n"
    + "00:00:09.240 --> 00:00:11.010" + "\n" + "We're all talking" + "\n" + "about the Iowa caucuses"
  const IOWA_TRANSCRIPT := "We're all talking about the Iowa caucuses"
  const IOWA_HEAD := ["WEBVTT"]
  const IOWA_NOTE := ["NOTE Paragraph"]
  const IOWA_CUE := WebVtt.Cue(None, "00:00:09.240 --> 00:00:11.010", ["We're all talking", "about the Iowa caucuses"])

  lemma IowaTimingIsCueTiming()
    ensures WebVtt.IsTiming(IOWA_CUE.timing) && !WebVtt.IsNote(IOWA_CUE.timing) && NEWLINE !in IOWA_CUE.timing
  {
    var timing := IOWA_CUE.timing;
    assert OccursAt(timing, "-->", 13);
    assert timing[0] == '0';
    assert !StartsWith(timing, "NOTE ") by {
      assert "NOTE "[0] == 'N';
    }
    assert !StartsWith(timing, "NOTE\t") by {
      assert "NOTE\t"[0] == 'N';
    }
  }

  lemma IowaNoteIsNote()
    ensures WebVtt.WellFormedPart(WebVtt.Note(IOWA_NOTE))
  {
    assert StartsWith(IOWA_NOTE[0], "NOTE ");
  }

  lemma IowaCueIsWellFormed()
    ensures WebVtt.WellFormedPart(WebVtt.Timed(IOWA_CUE))
  {
    IowaTimingIsCueTiming();
    assert WebVtt.NonBlankLines(IOWA_CUE.text);
  }

  lemma IowaHeadIsWellFormed()
    ensures WebVtt.WellFormedHeader(IOWA_HEAD)
  {
    assert StartsWith(IOWA_HEAD[0], WebVtt.HEADER);
  }

  const IOWA_PARTS := [WebVtt.Note(IOWA_NOTE), WebVtt.Timed(IOWA_CUE)]

  lemma IowaIsWellFormed()
    ensures WebVtt.WellFormedHeader(IOWA_HEAD)
    ensures forall k :: 0 <= k < |IOWA_PARTS| ==> WebVtt.WellFormedPart(IOWA_PARTS[k])
  {
    IowaHeadIsWellFormed();
    IowaNoteIsNote();
    IowaCueIsWellFormed();
  }

  const IOWA_LINES := ["WEBVTT", "", "NOTE Paragraph", "", "00:00:09.240 --> 00:00:11.010",
                        "We're all talking", "about the Iowa caucuses"]

  lemma IowaLines()
    ensures Unlines(IOWA_LINES) == IOWA_CAPTION
  {
    var ls := IOWA_LINES;
    assert ls[..1] == ["WEBVTT"];
    UnlinesSnoc(ls[..1], ls[1]);
    assert ls[..2] == ls[..1] + [ls[1]];
    UnlinesSnoc(ls[..2], ls[2]);
    assert ls[..3] == ls[..2] + [ls[2]];
    UnlinesSnoc(ls[..3], ls[3]);
    assert ls[..4] == ls[..3] + [ls[3]];
    UnlinesSnoc(ls[..4], ls[4]);
    assert ls[..5] == ls[..4] + [ls[4]];
    UnlinesSnoc(ls[..5], ls[5]);
    assert ls[..6] == ls[..5] + [ls[5]];
    UnlinesSnoc(ls[..6], ls[6]);
    assert ls == ls[..6] + [ls[6]];
  }

  lemma IowaIsRendered()
    ensures WebVtt.Render(IOWA_HEAD, IOWA_PARTS) == IOWA_CAPTION
  {
    var note, cue := WebVtt.Note(IOWA_NOTE), WebVtt.Timed(IOWA_CUE);
    assert IOWA_PARTS == [note, cue];
    assert [note, cue][1..] == [cue] && [cue][1..] == [];
    assert WebVtt.CueBlock(IOWA_CUE) == [IOWA_CUE.timing] + IOWA_CUE.text;
    assert WebVtt.BlockOf(cue) == [IOWA_CUE.timing] + IOWA_CUE.text;
    var cueLines := WebVtt.PartLines([cue]);
    assert cueLines == [""] + (WebVtt.BlockOf(cue) + WebVtt.PartLines([]));
    assert cueLines == [""] + ([IOWA_CUE.timing] + IOWA_CUE.text);
    assert WebVtt.PartLines([note, cue]) == [""] + (IOWA_NOTE + cueLines);
    assert WebVtt.RenderLines(IOWA_HEAD, IOWA_PARTS) == IOWA_LINES;
    IowaLines();
  }

  lemma IowaTranscriptSpelling()
    ensures "We're all talking" + SPACE + "about the Iowa caucuses" == IOWA_TRANSCRIPT
  {
  }

  lemma IowaJoin()
    ensures Concatenate(WebVtt.Texts(IOWA_PARTS)) == IOWA_TRANSCRIPT
  {
    var text := IOWA_CUE.text;
    var note, cue := WebVtt.Note(IOWA_NOTE), WebVtt.Timed(IOWA_CUE);
    assert IOWA_PARTS == [note, cue];
    assert [note, cue][1..] == [cue] && [cue][1..] == [];
    assert WebVtt.Texts([cue]) == [text];
    assert WebVtt.Texts([note, cue]) == [text];
    assert Flatten([text]) == text;
    assert text[1..] == ["about the Iowa caucuses"];
    assert Join(text, SPACE) == "We're all talking" + SPACE + "about the Iowa caucuses";
    IowaTranscriptSpelling();
  }

  /** The WebVTT caption of the fake provider yields its one cue's text on one line. */
  lemma IowaTranscript(parsers: CaptionParsers)
    ensures GenerateTranscript(IOWA_CAPTION, Tag(Vtt), parsers) == Success(IOWA_TRANSCRIPT)
  {
    IowaIsWellFormed();
    IowaIsRendered();
    VttTranscriptOfRender(IOWA_HEAD, IOWA_PARTS, parsers);
    IowaJoin();
  }
}
