/** Per-user session state (`context.user_data`) and the handlers that change
    it, plus the processing pipeline that a mode choice dispatches. Each
    handler is specified by a pure transition on a `State` record; the class
    `UserSession` holds the same fields and updates them in place. */
module Session {
  import opened Text
  import opened Audio
  import opened Transcript
  import opened Document

  datatype Option<T> = None | Some(value: T) {
    /** `dict.get(key, default)`. */
    function GetOr(default: T): T {
      if Some? then value else default
    }
  }

  /** The content type the user declares for an audio: spoken or sung. */
  datatype Mode = Voz | Canto

  function ModeName(m: Mode): string {
    match m
    case Voz => "VOZ"
    case Canto => "CANTO"
  }

  /** Callback data of the two buttons shown under a sung transcript. */
  const EditData: string := "EDIT_CANTO"
  const SaveData: string := "SAVE_CANTO"

  /** `a` spells the upper-case word `b` with any mix of ASCII cases. */
  predicate SameIgnoringCase(a: string, b: string) {
    |a| == |b| && forall i :: 0 <= i < |a| ==> a[i] == b[i] || a[i] as int == b[i] as int + 32
  }

  predicate AllUpperAscii(b: string) {
    forall i :: 0 <= i < |b| ==> 'A' <= b[i] <= 'Z'
  }

  /** Upper-casing `a` gives an upper-case word exactly when `a` spells it in
      some mix of cases. */
  lemma UpperMatches(a: string, b: string)
    requires AllUpperAscii(b)
    ensures Upper(a) == b <==> SameIgnoringCase(a, b)
  {
    if SameIgnoringCase(a, b) {
      assert forall i :: 0 <= i < |a| ==> Upper(a)[i] == b[i];
    }
    if Upper(a) == b {
      forall i | 0 <= i < |a| ensures a[i] == b[i] || a[i] as int == b[i] as int + 32 {
        assert UpperChar(a[i]) == b[i];
      }
    }
  }

  /** The reply to the "VOZ or CANTO?" question: `text.strip().upper()`
      must be one of the two mode names. */
  function ParseChoice(text: string): Option<Mode> {
    var choice := Upper(Strip(text));
    if choice == "CANTO" then Some(Canto)
    else if choice == "VOZ" then Some(Voz)
    else None
  }

  /** A reply selects a mode exactly when, without its surrounding
      whitespace, it spells that mode's name in any mix of cases; every other
      reply selects nothing. */
  lemma ParseChoiceSpec(text: string, m: Mode)
    ensures ParseChoice(text) == Some(m) <==> SameIgnoringCase(Strip(text), ModeName(m))
    ensures ParseChoice(text) == None <==>
      !SameIgnoringCase(Strip(text), "VOZ") && !SameIgnoringCase(Strip(text), "CANTO")
  {
    UpperMatches(Strip(text), "VOZ");
    UpperMatches(Strip(text), "CANTO");
  }

  /** A reply as users type it, with surrounding blanks and lower case. */
  lemma ParseChoiceTrimsAndFolds()
    ensures ParseChoice(" canto\n") == Some(Canto)
  {
    assert Strip(" canto\n") == "canto" by {
      assert TrimStart(" canto\n") == "canto\n" by {
        assert " canto\n"[1..] == "canto\n";
      }
      var t := "canto\n";
      assert TrimEnd(t) == TrimEnd(t[..5]);
      assert t[..5] == "canto";
    }
    assert Upper("canto") == "CANTO";
  }

  /** A reply that is not a mode name is refused. */
  lemma ParseChoiceRejects()
    ensures ParseChoice("vos") == None
  {
    assert Strip("vos") == "vos";
    assert Upper("vos") == "VOS";
  }

  /** Upper-casing the names `audio_type_handler` dispatches. */
  lemma ModeNamesUpper()
    ensures Upper(ModeName(Canto)) == "CANTO" && Upper(ModeName(Voz)) == "VOZ"
  {
    assert Upper("CANTO") == "CANTO";
    assert Upper("VOZ") == "VOZ";
  }

  /** The fields of `context.user_data` the bot uses; an absent key is `None`
      (or `false` for the flags, which the handlers read with `.get`). */
  datatype State = State(
    audioFileId: Option<string>,
    awaitingType: bool,
    awaitingCorrection: bool,
    lastTranscription: Option<string>,
    finalTranscription: Option<string>)

  /** The session of a user the bot has never heard from. */
  const Empty: State := State(None, false, false, None, None)

  /** `handle_audio`: a voice or audio message arrived. The voice file id is
      preferred to the audio one; the id is recorded and the bot waits for
      the mode choice. A message with neither changes nothing. The
      correction flag and the transcriptions are left alone. */
  function OnAudio(s: State, voice: Option<string>, audio: Option<string>): (r: State)
    ensures voice.Some? ==> r.audioFileId == voice && r.awaitingType
    ensures voice.None? && audio.Some? ==> r.audioFileId == audio && r.awaitingType
    ensures voice.None? && audio.None? ==> r == s
    ensures r.awaitingCorrection == s.awaitingCorrection
    ensures r.lastTranscription == s.lastTranscription && r.finalTranscription == s.finalTranscription
  {
    if voice.Some? then s.(audioFileId := voice, awaitingType := true)
    else if audio.Some? then s.(audioFileId := audio, awaitingType := true)
    else s
  }

  /** What `audio_type_handler` does besides updating the session. */
  datatype ChoiceReply =
    | NotAwaiting                                    // returns at once
    | AskAgain                                       // "answer only VOZ or CANTO"
    | Dispatch(fileId: Option<string>, mode: Mode)   // processing is scheduled

  /** `audio_type_handler`: ignored unless a mode choice is awaited; an
      invalid reply keeps waiting and dispatches nothing; a valid one stops
      waiting and dispatches the stored file with the chosen mode. */
  function OnChoice(s: State, text: string): (r: (State, ChoiceReply))
    ensures !s.awaitingType ==> r == (s, NotAwaiting)
    ensures s.awaitingType && ParseChoice(text).None? ==> r == (s, AskAgain) && r.0.awaitingType
    ensures s.awaitingType && ParseChoice(text).Some? ==>
      r.0 == s.(awaitingType := false) && r.1 == Dispatch(s.audioFileId, ParseChoice(text).value)
  {
    if !s.awaitingType then (s, NotAwaiting)
    else
      match ParseChoice(text)
      case None => (s, AskAgain)
      case Some(m) => (s.(awaitingType := false), Dispatch(s.audioFileId, m))
  }

  /** What `correction_handler` does besides updating the session. */
  datatype CorrectionReply = NotAwaitingCorrection | CorrectionSaved(final: string)

  /** `correction_handler`: ignored unless a correction is awaited; then the
      stripped text becomes the final transcription and the wait ends. */
  function OnCorrection(s: State, text: string): (r: (State, CorrectionReply))
    ensures !s.awaitingCorrection ==> r == (s, NotAwaitingCorrection)
    ensures s.awaitingCorrection ==>
      r.0 == s.(awaitingCorrection := false, finalTranscription := Some(Strip(text)))
      && r.1 == CorrectionSaved(Strip(text))
  {
    if !s.awaitingCorrection then (s, NotAwaitingCorrection)
    else
      var corrected := Strip(text);
      (s.(awaitingCorrection := false, finalTranscription := Some(corrected)), CorrectionSaved(corrected))
  }

  /** What `canto_callback_handler` does besides updating the session. */
  datatype CallbackReply =
    | NoQuery                      // the update carries no button press
    | Answered                     // the press is acknowledged, nothing else
    | EditPrompt(current: string)  // asks for the corrected text, showing the current one
    | SaveConfirmed(final: string) // shows the saved final transcription

  /** `canto_callback_handler`: Edit only starts waiting for a correction;
      Save copies the last transcription ("" if there is none) to the final
      one and stops waiting; other data, or no query, change nothing. */
  function OnCallback(s: State, query: Option<string>): (r: (State, CallbackReply))
    ensures query.None? ==> r == (s, NoQuery)
    ensures query == Some(EditData) ==>
      r.0 == s.(awaitingCorrection := true) && r.1 == EditPrompt(s.lastTranscription.GetOr(""))
    ensures query == Some(SaveData) ==>
      r.0.finalTranscription == Some(s.lastTranscription.GetOr("")) && !r.0.awaitingCorrection
      && r.0 == s.(awaitingCorrection := false, finalTranscription := r.0.finalTranscription)
      && r.1 == SaveConfirmed(s.lastTranscription.GetOr(""))
    ensures query.Some? && query.value != EditData && query.value != SaveData ==> r == (s, Answered)
  {
    match query
    case None => (s, NoQuery)
    case Some(data) =>
      if data == EditData then
        (s.(awaitingCorrection := true), EditPrompt(s.lastTranscription.GetOr("")))
      else if data == SaveData then
        var final := s.lastTranscription.GetOr("");
        (s.(awaitingCorrection := false, finalTranscription := Some(final)), SaveConfirmed(final))
      else (s, Answered)
  }

  /** Pressing Save twice in a row leaves the same state and shows the same
      final transcription as pressing it once. */
  lemma SaveIdempotent(s: State)
    ensures var once := OnCallback(s, Some(SaveData));
      OnCallback(once.0, Some(SaveData)) == once
  {
  }

  /** The two waiting flags are independent: a new audio while a correction
      is awaited, or Edit while a mode choice is awaited, leaves both set. */
  lemma FlagsNotExclusive(s: State, fileId: string)
    ensures var t := OnAudio(s.(awaitingCorrection := true), Some(fileId), None);
      t.awaitingType && t.awaitingCorrection
    ensures var t := OnCallback(OnAudio(s, Some(fileId), None), Some(EditData)).0;
      t.awaitingType && t.awaitingCorrection
  {
  }

  /** How one run of `process_audio_and_summarize` ends. */
  datatype Outcome =
    | TooLong                          // guidance to split the audio; nothing else
    | TranscriptionFailed              // a provider call raised: general error message
    | SungReview(transcript: string)   // CANTO: transcript shown with Edit / Save
    | Spoken(transcript: string, prompt: string, story: seq<Flowable>)  // VOZ: summary and PDF

  /** The new session, the segments submitted for transcription in order,
      and the outcome. */
  datatype Run = Run(state: State, requests: seq<Segment>, outcome: Outcome)

  /** The CANTO branch: the transcript is kept for review and no correction
      is awaited yet; nothing else in the session changes. */
  function AfterSung(s: State, transcript: string): State {
    s.(lastTranscription := Some(transcript), awaitingCorrection := false)
  }

  /** `process_audio_and_summarize` once the audio is decoded to a duration:
      `responses` are the texts the transcription provider returns, one per
      call, and `summary` the text the summarizer returns. */
  function Pipeline(s: State, durationMs: nat, audioType: string, responses: seq<string>, summary: string): (r: Run)
    // the duration guard stops everything before segmentation
    ensures ExceedsCeiling(durationMs) ==> r == Run(s, [], TooLong)
    // what passes it is cut into at most three segments, sent in order
    ensures !ExceedsCeiling(durationMs) ==> r.requests <= Segments(durationMs) && |r.requests| <= 3
    // a missing response aborts with nothing stored
    ensures r.outcome == TranscriptionFailed <==>
      !ExceedsCeiling(durationMs) && |responses| < |Segments(durationMs)|
    ensures r.outcome.SungReview? || r.outcome.Spoken? ==>
      r.requests == Segments(durationMs)
      && r.outcome.transcript == Joined(responses[..|Segments(durationMs)|])
    // CANTO stores the transcript and stops before any summary or document
    ensures r.outcome.SungReview? <==>
      !ExceedsCeiling(durationMs) && |Segments(durationMs)| <= |responses| && Upper(audioType) == "CANTO"
    ensures r.outcome.SungReview? ==> r.state == AfterSung(s, r.outcome.transcript)
    // every other path leaves the session as it was
    ensures !r.outcome.SungReview? ==> r.state == s
    // VOZ sends exactly the truncated transcript and renders summary and transcript
    ensures r.outcome.Spoken? ==>
      r.outcome.prompt == SummaryPrompt(r.outcome.transcript)
      && r.outcome.story == Story(summary, r.outcome.transcript)
  {
    if ExceedsCeiling(durationMs) then Run(s, [], TooLong)
    else
      var segments := Segments(durationMs);
      if |responses| < |segments| then Run(s, segments[..|responses| + 1], TranscriptionFailed)
      else
        var transcript := Joined(responses[..|segments|]);
        if Upper(audioType) == "CANTO" then Run(AfterSung(s, transcript), segments, SungReview(transcript))
        else Run(s, segments, Spoken(transcript, SummaryPrompt(transcript), Story(summary, transcript)))
  }

  /** The mode a choice dispatches decides the branch: CANTO never reaches
      the summarizer or the document, VOZ always does. */
  lemma ModeRouting(s: State, durationMs: nat, m: Mode, responses: seq<string>, summary: string)
    requires !ExceedsCeiling(durationMs) && |Segments(durationMs)| <= |responses|
    ensures var r := Pipeline(s, durationMs, ModeName(m), responses, summary);
      (r.outcome.SungReview? <==> m == Canto) && (r.outcome.Spoken? <==> m == Voz)
  {
    ModeNamesUpper();
  }

  /** The sung flow end to end: after a CANTO run, Edit and a corrected text
      make the stripped correction final; Save instead makes the transcript
      itself final. Either way no correction is awaited afterwards. */
  lemma SungFlow(s: State, durationMs: nat, responses: seq<string>, correction: string)
    requires !ExceedsCeiling(durationMs) && |Segments(durationMs)| <= |responses|
    ensures var run := Pipeline(s, durationMs, ModeName(Canto), responses, "");
      var transcript := Joined(responses[..|Segments(durationMs)|]);
      var edited := OnCorrection(OnCallback(run.state, Some(EditData)).0, correction).0;
      var saved := OnCallback(run.state, Some(SaveData)).0;
      edited.finalTranscription == Some(Strip(correction)) && !edited.awaitingCorrection
      && saved.finalTranscription == Some(transcript) && !saved.awaitingCorrection
      && edited.lastTranscription == saved.lastTranscription == Some(transcript)
  {
    ModeNamesUpper();
    var run := Pipeline(s, durationMs, ModeName(Canto), responses, "");
    var transcript := Joined(responses[..|Segments(durationMs)|]);
    assert run.state == AfterSung(s, transcript);
  }

  /** The 60-minute example: guidance only, no segment is ever sent. */
  lemma SixtyMinutes(s: State, audioType: string, responses: seq<string>, summary: string)
    ensures Pipeline(s, 60 * MsPerMinute, audioType, responses, summary) == Run(s, [], TooLong)
  {
  }

  /** `context.user_data` of one user, updated in place by the handlers. */
  class UserSession {
    var audioFileId: Option<string>
    var awaitingType: bool
    var awaitingCorrection: bool
    var lastTranscription: Option<string>
    var finalTranscription: Option<string>

    function Snapshot(): State
      reads this
    {
      State(audioFileId, awaitingType, awaitingCorrection, lastTranscription, finalTranscription)
    }

    constructor ()
      ensures Snapshot() == Empty
    {
      audioFileId, awaitingType, awaitingCorrection := None, false, false;
      lastTranscription, finalTranscription := None, None;
    }

    /** `handle_audio`. */
    method HandleAudio(voice: Option<string>, audio: Option<string>)
      modifies this
      ensures Snapshot() == OnAudio(old(Snapshot()), voice, audio)
    {
      var fileId: string;
      if voice.Some? {
        fileId := voice.value;
      } else if audio.Some? {
        fileId := audio.value;
      } else {
        return;
      }
      audioFileId := Some(fileId);
      awaitingType := true;
    }

    /** `audio_type_handler`. */
    method AudioTypeHandler(text: string) returns (reply: ChoiceReply)
      modifies this
      ensures (Snapshot(), reply) == OnChoice(old(Snapshot()), text)
    {
      if !awaitingType {
        return NotAwaiting;
      }
      var choice := Upper(Strip(text));
      var fileId := audioFileId;
      if choice != "VOZ" && choice != "CANTO" {
        return AskAgain;
      }
      awaitingType := false;
      var mode := if choice == "CANTO" then Canto else Voz;
      reply := Dispatch(fileId, mode);
    }

    /** `correction_handler`. */
    method CorrectionHandler(text: string) returns (reply: CorrectionReply)
      modifies this
      ensures (Snapshot(), reply) == OnCorrection(old(Snapshot()), text)
    {
      if !awaitingCorrection {
        return NotAwaitingCorrection;
      }
      var corrected := Strip(text);
      awaitingCorrection := false;
      finalTranscription := Some(corrected);
      reply := CorrectionSaved(corrected);
    }

    /** `canto_callback_handler`. */
    method CantoCallbackHandler(query: Option<string>) returns (reply: CallbackReply)
      modifies this
      ensures (Snapshot(), reply) == OnCallback(old(Snapshot()), query)
    {
      if query.None? {
        return NoQuery;
      }
      var data := query.value;
      if data == EditData {
        var last := lastTranscription.GetOr("");
        awaitingCorrection := true;
        reply := EditPrompt(last);
      } else if data == SaveData {
        var final := lastTranscription.GetOr("");
        awaitingCorrection := false;
        finalTranscription := Some(final);
        reply := SaveConfirmed(final);
      } else {
        reply := Answered;
      }
    }

    /** `process_audio_and_summarize` from the decoded duration on. */
    method ProcessAudio(durationMs: nat, audioType: string, responses: seq<string>, summary: string)
      returns (requests: seq<Segment>, outcome: Outcome)
      modifies this
      ensures Run(Snapshot(), requests, outcome) == Pipeline(old(Snapshot()), durationMs, audioType, responses, summary)
    {
      if ExceedsCeiling(durationMs) {
        return [], TooLong;
      }
      var segments := Segments(durationMs);
      var ok, transcript;
      requests, ok, transcript := Transcribe(segments, responses);
      if !ok {
        return requests, TranscriptionFailed;
      }
      if Upper(audioType) == "CANTO" {
        lastTranscription := Some(transcript);
        awaitingCorrection := false;
        return requests, SungReview(transcript);
      }
      var prompt := SummaryPrompt(transcript);
      var story := BuildStory(summary, transcript);
      outcome := Spoken(transcript, prompt, story);
    }
  }
}
