/** The content of the PDF built by `create_pdf`: the list of flowables
    ("story") handed to the renderer. Rendering itself is not modelled. */
module Document {
  import opened Text

  datatype Style = TitleStyle | CustomHeading2 | NormalSpanish

  /** A ReportLab flowable: a styled paragraph or a blank spacer. */
  datatype Flowable = Paragraph(text: string, style: Style) | Spacer(width: nat, height: nat)

  const Title: string := "Resumen y Transcripción de Audio por TranscriptorAudioIA Yeshúa la toraviviente."
  const SummaryHeading: string := "<b>1. Resumen</b>"
  const TranscriptHeading: string := "<b>2. Transcripción Completa</b>"

  /** What precedes the summary paragraphs: title, spacer, section heading. */
  function Opening(): seq<Flowable> {
    [Paragraph(Title, TitleStyle), Spacer(1, 12), Paragraph(SummaryHeading, CustomHeading2)]
  }

  /** What follows them: the second section, the whole transcript as one block. */
  function Closing(fullTranscript: string): seq<Flowable> {
    [Spacer(1, 24), Paragraph(TranscriptHeading, CustomHeading2), Spacer(1, 12),
     Paragraph(fullTranscript, NormalSpanish)]
  }

  /** The stripped non-blank lines, in order. */
  function KeptParagraphs(lines: seq<string>): seq<string> {
    if lines == [] then []
    else
      var p := Strip(lines[|lines| - 1]);
      KeptParagraphs(lines[..|lines| - 1]) + (if p != "" then [p] else [])
  }

  /** The indices of the non-blank lines, in order. */
  function KeptIndices(lines: seq<string>): seq<nat> {
    if lines == [] then []
    else
      var n := |lines| - 1;
      KeptIndices(lines[..n]) + (if Strip(lines[n]) != "" then [n] else [])
  }

  /** The indices kept are ascending, in range, and are exactly those of
      the lines that are not blank once stripped. */
  lemma {:induction false} KeptIndicesSpec(lines: seq<string>)
    ensures forall j :: 0 <= j < |KeptIndices(lines)| ==> KeptIndices(lines)[j] < |lines|
    ensures forall i, j :: 0 <= i < j < |KeptIndices(lines)| ==> KeptIndices(lines)[i] < KeptIndices(lines)[j]
    ensures forall i :: 0 <= i < |lines| ==> (i in KeptIndices(lines) <==> Strip(lines[i]) != "")
  {
    if lines != [] {
      var n := |lines| - 1;
      var init := lines[..n];
      KeptIndicesSpec(init);
      var extra: seq<nat> := if Strip(lines[n]) != "" then [n] else [];
      assert KeptIndices(lines) == KeptIndices(init) + extra;
      forall i | 0 <= i < n ensures lines[i] == init[i] { }
    }
  }

  /** The kept paragraphs are exactly the non-blank lines, stripped, in their
      original order: the `j`-th kept paragraph is the stripped line at the
      `j`-th kept index (see `KeptIndicesSpec`). */
  lemma {:induction false} KeptParagraphsExact(lines: seq<string>)
    ensures |KeptIndices(lines)| == |KeptParagraphs(lines)|
    ensures forall j :: 0 <= j < |KeptIndices(lines)| ==>
      KeptIndices(lines)[j] < |lines| && KeptParagraphs(lines)[j] == Strip(lines[KeptIndices(lines)[j]])
  {
    if lines != [] {
      var n := |lines| - 1;
      var init := lines[..n];
      KeptParagraphsExact(init);
      var p := Strip(lines[n]);
      var ki, kp := KeptIndices(init), KeptParagraphs(init);
      if p != "" {
        assert KeptIndices(lines) == ki + [n];
        assert KeptParagraphs(lines) == kp + [p];
      } else {
        assert KeptIndices(lines) == ki;
        assert KeptParagraphs(lines) == kp;
      }
      forall j | 0 <= j < |ki| ensures lines[ki[j]] == init[ki[j]] { }
    }
  }

  /** `summary.split('\n')` filtered by `p.strip()` and mapped to `p.strip()`. */
  function SummaryParagraphs(summary: string): seq<string> {
    KeptParagraphs(Split(summary, '\n'))
  }

  /** Each kept paragraph is non-empty, has no surrounding whitespace and no
      line break. */
  lemma SummaryParagraphsClean(summary: string)
    ensures forall j :: 0 <= j < |SummaryParagraphs(summary)| ==>
      var p := SummaryParagraphs(summary)[j];
      p != "" && !IsSpace(p[0]) && !IsSpace(p[|p| - 1]) && '\n' !in p
  {
    var lines := Split(summary, '\n');
    KeptIndicesSpec(lines);
    KeptParagraphsExact(lines);
    forall j | 0 <= j < |SummaryParagraphs(summary)|
      ensures var p := SummaryParagraphs(summary)[j];
        p != "" && !IsSpace(p[0]) && !IsSpace(p[|p| - 1]) && '\n' !in p
    {
      var idx := KeptIndices(lines)[j];
      assert idx in KeptIndices(lines);
      var line := lines[idx];
      var p := Strip(line);
      assert p != "";
      StripSpec(line);
      var a := |line| - |TrimStart(line)|;
      assert p == line[a..a + |p|];
      assert forall c :: c in p ==> c in line;
    }
  }

  /** One paragraph and one small spacer per kept summary line. */
  function Blocks(paragraphs: seq<string>): seq<Flowable> {
    if paragraphs == [] then []
    else Blocks(paragraphs[..|paragraphs| - 1]) + [Paragraph(paragraphs[|paragraphs| - 1], NormalSpanish), Spacer(1, 6)]
  }

  lemma {:induction false} BlocksAt(paragraphs: seq<string>)
    ensures |Blocks(paragraphs)| == 2 * |paragraphs|
    ensures forall j :: 0 <= j < |paragraphs| ==>
      Blocks(paragraphs)[2 * j] == Paragraph(paragraphs[j], NormalSpanish) && Blocks(paragraphs)[2 * j + 1] == Spacer(1, 6)
  {
    if paragraphs != [] {
      BlocksAt(paragraphs[..|paragraphs| - 1]);
    }
  }

  /** The story `create_pdf` builds for a summary and a full transcript. */
  function Story(summary: string, fullTranscript: string): seq<Flowable> {
    Opening() + Blocks(SummaryParagraphs(summary)) + Closing(fullTranscript)
  }

  /** Layout of the story: title, spacer and heading; then, for every kept
      summary paragraph in order, that paragraph followed by a spacer; then
      the transcript section ending with the whole transcript as one block. */
  lemma StoryLayout(summary: string, fullTranscript: string)
    ensures var story, kept := Story(summary, fullTranscript), SummaryParagraphs(summary);
      |story| == 7 + 2 * |kept|
      && story[..3] == Opening()
      && (forall j :: 0 <= j < |kept| ==>
            story[3 + 2 * j] == Paragraph(kept[j], NormalSpanish) && story[4 + 2 * j] == Spacer(1, 6))
      && story[|story| - 4..] == Closing(fullTranscript)
      && story[|story| - 1] == Paragraph(fullTranscript, NormalSpanish)
  {
    LayoutOf(SummaryParagraphs(summary), fullTranscript);
  }

  lemma LayoutOf(kept: seq<string>, fullTranscript: string)
    ensures var story := Opening() + Blocks(kept) + Closing(fullTranscript);
      |story| == 7 + 2 * |kept|
      && story[..3] == Opening()
      && (forall j :: 0 <= j < |kept| ==>
            story[3 + 2 * j] == Paragraph(kept[j], NormalSpanish) && story[4 + 2 * j] == Spacer(1, 6))
      && story[|story| - 4..] == Closing(fullTranscript)
      && story[|story| - 1] == Paragraph(fullTranscript, NormalSpanish)
  {
    var blocks := Blocks(kept);
    BlocksAt(kept);
    var story := Opening() + blocks + Closing(fullTranscript);
    assert |story| == 7 + 2 * |kept|;
    assert story[..3] == Opening();
    assert story[|story| - 4..] == Closing(fullTranscript);
    forall j | 0 <= j < |kept|
      ensures story[3 + 2 * j] == Paragraph(kept[j], NormalSpanish) && story[4 + 2 * j] == Spacer(1, 6)
    {
      assert story[3 + 2 * j] == blocks[2 * j];
      assert story[4 + 2 * j] == blocks[2 * j + 1];
    }
  }

  /** One more line extends the kept paragraphs by that line, stripped, if
      it is not blank. */
  lemma KeptStep(lines: seq<string>, i: nat)
    requires i < |lines|
    ensures KeptParagraphs(lines[..i + 1]) ==
      KeptParagraphs(lines[..i]) + (if Strip(lines[i]) != "" then [Strip(lines[i])] else [])
  {
    assert lines[..i + 1][..i] == lines[..i];
  }

  lemma BlocksStep(paragraphs: seq<string>, p: string)
    ensures Blocks(paragraphs + [p]) == Blocks(paragraphs) + [Paragraph(p, NormalSpanish), Spacer(1, 6)]
  {
    assert (paragraphs + [p])[..|paragraphs|] == paragraphs;
  }

  /** The loop of `create_pdf` over the summary lines, appending a paragraph
      and a spacer for each non-blank one, between the fixed opening and
      closing flowables. */
  method BuildStory(summary: string, fullTranscript: string) returns (story: seq<Flowable>)
    ensures story == Story(summary, fullTranscript)
  {
    story := Opening();
    var lines := Split(summary, '\n');
    var i := 0;
    while i < |lines|
      invariant i <= |lines|
      invariant story == Opening() + Blocks(KeptParagraphs(lines[..i]))
    {
      KeptStep(lines, i);
      var p := lines[i];
      if Strip(p) != "" {
        BlocksStep(KeptParagraphs(lines[..i]), Strip(p));
        story := story + [Paragraph(Strip(p), NormalSpanish), Spacer(1, 6)];
      } else {
        assert KeptParagraphs(lines[..i + 1]) == KeptParagraphs(lines[..i]);
      }
      i := i + 1;
    }
    assert lines[..i] == lines;
    story := story + Closing(fullTranscript);
  }
}
