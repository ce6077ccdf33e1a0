/** Transcript aggregation and the summary request built from it. The
    transcription provider is given as the sequence of texts its calls
    return, one per call, in call order. */
module Transcript {
  import opened Audio

  /** `t1 + " " + t2 + " " + ... + tn + " "`: every text followed by one space. */
  function Joined(texts: seq<string>): string {
    if texts == [] then "" else Joined(texts[..|texts| - 1]) + texts[|texts| - 1] + " "
  }

  function SumLengths(texts: seq<string>): nat {
    if texts == [] then 0 else SumLengths(texts[..|texts| - 1]) + |texts[|texts| - 1]|
  }

  /** Where the `k`-th text starts inside `Joined(texts)`. */
  function Offset(texts: seq<string>, k: nat): nat
    requires k <= |texts|
  {
    SumLengths(texts[..k]) + k
  }

  /** The transcript has one character per transcribed character plus one
      separator per segment; no segment gives the empty transcript. */
  lemma {:induction false} JoinedLength(texts: seq<string>)
    ensures |Joined(texts)| == SumLengths(texts) + |texts|
    ensures texts == [] ==> Joined(texts) == ""
  {
    if texts != [] {
      JoinedLength(texts[..|texts| - 1]);
    }
  }

  /** Joining distributes over concatenation of the text lists. */
  lemma {:induction false} JoinedAppend(a: seq<string>, b: seq<string>)
    ensures Joined(a + b) == Joined(a) + Joined(b)
    decreases |b|
  {
    if b == [] {
      assert a + b == a;
    } else {
      var b' := b[..|b| - 1];
      assert (a + b)[..|a + b| - 1] == a + b';
      JoinedAppend(a, b');
    }
  }

  /** Segment order is kept: the `k`-th text sits at `Offset(texts, k)`,
      immediately followed by one space. */
  lemma JoinedPlacement(texts: seq<string>, k: nat)
    requires k < |texts|
    ensures Offset(texts, k) + |texts[k]| < |Joined(texts)|
    ensures Joined(texts)[Offset(texts, k)..Offset(texts, k) + |texts[k]|] == texts[k]
    ensures Joined(texts)[Offset(texts, k) + |texts[k]|] == ' '
  {
    var before, upto, after := texts[..k], texts[..k + 1], texts[k + 1..];
    assert texts == upto + after;
    assert upto[..k] == before;
    JoinedAppend(upto, after);
    JoinedLength(before);
    var head := Joined(before) + texts[k] + " ";
    assert Joined(upto) == head;
    var o := Offset(texts, k);
    assert o == |Joined(before)|;
    assert Joined(texts) == head + Joined(after);
    assert head[o..o + |texts[k]|] == texts[k];
  }

  /** The transcription loop: one provider call per segment, in segment
      order, each returned text appended to the transcript with a trailing
      space. A call for which the provider gives no text raises, which ends
      the loop without a transcript; `requests` are the segments submitted,
      the failing one included. */
  method Transcribe(segments: seq<Segment>, responses: seq<string>)
    returns (requests: seq<Segment>, ok: bool, transcript: string)
    ensures ok <==> |segments| <= |responses|
    ensures requests == segments[..if ok then |segments| else |responses| + 1]
    ensures ok ==> transcript == Joined(responses[..|segments|])
  {
    requests, transcript := [], "";
    var i := 0;
    while i < |segments|
      invariant i <= |segments| && i <= |responses|
      invariant requests == segments[..i]
      invariant transcript == Joined(responses[..i])
    {
      requests := requests + [segments[i]];
      if i == |responses| {
        ok := false;
        return;
      }
      assert responses[..i + 1][..i] == responses[..i];
      transcript := transcript + responses[i] + " ";
      i := i + 1;
    }
    ok := true;
  }

  /** Characters of transcript handed to the summarizer at most. */
  const MaxSummaryChars: nat := 8000

  /** `full_transcript[:8000]`. */
  function SummaryInput(transcript: string): (r: string)
    ensures |r| == Min(MaxSummaryChars, |transcript|)
    ensures r <= transcript
  {
    transcript[..Min(MaxSummaryChars, |transcript|)]
  }

  /** Truncation keeps a short transcript whole, is idempotent, and ignores
      whatever follows the first 8000 characters. */
  lemma SummaryInputFacts(transcript: string, more: string)
    ensures |transcript| <= MaxSummaryChars ==> SummaryInput(transcript) == transcript
    ensures SummaryInput(SummaryInput(transcript)) == SummaryInput(transcript)
    ensures |transcript| >= MaxSummaryChars ==> SummaryInput(transcript + more) == SummaryInput(transcript)
  {
    if |transcript| >= MaxSummaryChars {
      assert (transcript + more)[..MaxSummaryChars] == transcript[..MaxSummaryChars];
    }
  }

  /** The fixed instruction placed before the transcript in the user message. */
  const PromptHeader: string :=
    "Resume el siguiente contenido en español en un máximo de TRES párrafos claros y concisos. "
    + "Extrae únicamente las ideas principales, conclusiones y temas relevantes. "
    + "No agregues información externa ni títulos.\n\n"
    + "---\n\n"

  /** The user message of the summary request: the fixed header, then
      exactly the truncated transcript. */
  function SummaryPrompt(transcript: string): (r: string)
    ensures |r| == |PromptHeader| + Min(MaxSummaryChars, |transcript|)
    ensures r[..|PromptHeader|] == PromptHeader
    ensures r[|PromptHeader|..] == transcript[..Min(MaxSummaryChars, |transcript|)]
  {
    PromptHeader + SummaryInput(transcript)
  }

  /** The three-text example: the transcript is "a b c " and, being short,
      reaches the summarizer whole. */
  lemma ThreeTexts()
    ensures Joined(["a", "b", "c"]) == "a b c "
    ensures SummaryInput("a b c ") == "a b c "
  {
    assert ["a", "b", "c"][..2] == ["a", "b"];
    assert ["a", "b"][..1] == ["a"];
    assert ["a"][..0] == [];
  }
}
