# Transcriptor bot core, in Dafny

A Telegram bot receives a voice or audio message. It asks whether the audio
is spoken (`VOZ`) or sung (`CANTO`). It then downloads and decodes the audio
and refuses anything over 50 minutes. Accepted audio is cut into 20-minute
segments, each segment is transcribed in order, and the texts are joined
into one transcript. Spoken audio goes on to a summary and a PDF. For sung
audio the transcript is stored in the user's session, and the user can edit
or save it with two buttons.

This project models the deterministic core of `bot_telegram.py`:

- `text.dfy` (module `Text`): the Python string operations the core relies on.
  These are `str.strip()` over Python's whitespace set, `str.upper()` on
  ASCII letters, and `str.split('\n')` with its inverse `'\n'.join`.
- `audio.dfy` (module `Audio`): the duration guard and the segmenter. Audio is
  known only by `len(audio)`, its length in whole milliseconds. A slice clamps
  both ends to that length, as pydub does.
- `transcript.dfy` (module `Transcript`): the transcription loop. The provider
  is given as the list of texts its calls return. The module also holds the
  8000-character truncation and the summary prompt.
- `document.dfy` (module `Document`): the list of flowables ("story") that
  `create_pdf` hands to the renderer. This includes the selection of summary
  paragraphs.
- `session.dfy` (module `Session`): the per-user `context.user_data` fields
  and the handlers that change them. Each handler is a pure transition on a
  `State` record. The class `UserSession` holds the same fields and has one
  method per handler, proved against that transition. `Pipeline` describes one
  run of `process_audio_and_summarize`, and `UserSession.ProcessAudio`
  performs it in place.

Where the system's own design description and the code disagree, the model
follows the code:

- The design description says that at most one of "awaiting mode choice" and
  "awaiting correction" is ever set. The code does not keep this. `handle_audio`
  sets `awaiting_type` without clearing `awaiting_correction`, and Edit sets
  `awaiting_correction` without clearing `awaiting_type`. `FlagsNotExclusive`
  proves that both flags can be set together.
- The design description gives the transcript as `T1 + " " + ... + Tn`. The
  code appends a space after every text, the last one included, and so does
  `Joined`.

## Model

| member | source | states |
|---|---|---|
| `Text.StripSpec` | bot_telegram.py:64-65 | `strip` keeps one block of the line, from its first non-space character. Only whitespace lies outside that block, and the block neither starts nor ends with whitespace. It is empty exactly when the line is all whitespace. |
| `Text.Upper` | bot_telegram.py:314 | Upper-casing keeps the length and maps each character through the ASCII upper-case map. |
| `Text.Split` | bot_telegram.py:62 | `split('\n')` yields at least one piece, and no piece contains a line break. |
| `Text.JoinSplit` | bot_telegram.py:62 | Joining the pieces with `'\n'` gives back the original summary, so splitting loses nothing. |
| `Text.SplitJoin` | bot_telegram.py:62 | Splitting a join of separator-free pieces gives those pieces back, so the split is the unique such decomposition. |
| `Audio.ExceedsCeiling` | bot_telegram.py:148-152 | The check `duration_ms / 60000 > 50` holds exactly when the duration is over 3,000,000 ms. |
| `Audio.SegmentStarts` | bot_telegram.py:168-171 | `range(from, d, 1_200_000)` has `ceil((d - from) / 1_200_000)` elements, and the `k`-th is `from + k * 1_200_000`, below `d`. |
| `Audio.Segments` | bot_telegram.py:166-171 | There are `ceil(d / 1_200_000)` segments. The `k`-th starts at `k * 1_200_000`, below `d`, and ends at `min(start + 1_200_000, d)`. |
| `Audio.SegmentsTile` | bot_telegram.py:166-171 | A duration of 0 gives no segment, and only 0 does. The first segment starts at 0 and the last ends at `d`. Each is non-empty and at most 20 minutes long, and each starts where the previous one ends. Their lengths sum to `d`. |
| `Audio.SegmentsCover` | bot_telegram.py:166-171 | Every millisecond below `d` lies in exactly one segment, the one with index `t / 1_200_000`. |
| `Audio.AtMostThreeSegments` | bot_telegram.py:148-171 | Audio that passes the duration guard gives at most three segments. |
| `Audio.FortyFiveMinutes` | bot_telegram.py:166-171 | A 45-minute audio gives segments of 20, 20 and 5 minutes. |
| `Transcript.JoinedLength` | bot_telegram.py:173-201 | The transcript is as long as the sum of the text lengths plus one per segment. With no segment it is `""`. |
| `Transcript.JoinedAppend` | bot_telegram.py:182-201 | The transcript of two consecutive runs of segments is the concatenation of their transcripts. |
| `Transcript.JoinedPlacement` | bot_telegram.py:182-201 | Segment order is kept: the `k`-th text sits right after the first `k` texts and their spaces, and one space follows it. |
| `Transcript.Transcribe` | bot_telegram.py:173-201 | One request per segment, in order. If every call answers, the transcript is `t1 + " " + ... + tn + " "`. A missing answer aborts the loop after submitting that segment. |
| `Transcript.SummaryInput` | bot_telegram.py:235-236 | The summary input is the prefix of the transcript of length `min(8000, |transcript|)`. |
| `Transcript.SummaryInputFacts` | bot_telegram.py:235-236 | A transcript of at most 8000 characters is kept whole. Truncation is idempotent, and whatever follows the first 8000 characters is ignored. |
| `Transcript.SummaryPrompt` | bot_telegram.py:238-243 | The prompt is the fixed header followed by exactly the truncated transcript. |
| `Transcript.ThreeTexts` | bot_telegram.py:173-243 | Texts "a", "b", "c" give the transcript "a b c ", which reaches the summarizer untruncated. |
| `Document.KeptIndicesSpec` | bot_telegram.py:62-66 | The kept line indices are ascending and in range. They are exactly the lines whose strip is non-empty. |
| `Document.KeptParagraphsExact` | bot_telegram.py:62-66 | The `j`-th kept paragraph is the stripped line at the `j`-th kept index, so there are as many paragraphs as indices. |
| `Document.SummaryParagraphsClean` | bot_telegram.py:62-66 | Each kept summary paragraph is non-empty, has no surrounding whitespace and contains no line break. |
| `Document.StoryLayout` | bot_telegram.py:54-73 | The story is title, spacer and heading. Then comes one paragraph and one 6-point spacer per kept summary line, in order. It ends with the transcript section, whose last block is the whole transcript. |
| `Document.BuildStory` | bot_telegram.py:54-73 | The loop over the summary lines builds exactly `Story(summary, transcript)`. |
| `Session.ParseChoiceSpec` | bot_telegram.py:314-324 | A reply selects a mode exactly when, after stripping, it spells that mode's name in any mix of ASCII case. Any other reply selects nothing. |
| `Session.ParseChoiceTrimsAndFolds` | bot_telegram.py:314-324 | The reply `" canto\n"` selects CANTO. |
| `Session.ParseChoiceRejects` | bot_telegram.py:314-319 | The reply `"vos"` selects nothing. |
| `Session.OnAudio` | bot_telegram.py:391-404 | The voice file id is recorded in preference to the audio one, and the mode choice is then awaited. A message with neither changes nothing. The correction flag and the transcriptions are never touched. |
| `Session.OnChoice` | bot_telegram.py:310-337 | Nothing happens unless a mode choice is awaited. An invalid reply keeps waiting and dispatches nothing. A valid reply stops waiting and dispatches the stored file id with the parsed mode. |
| `Session.OnCorrection` | bot_telegram.py:340-353 | Nothing happens unless a correction is awaited. Otherwise the stripped text becomes the final transcription and the wait ends. |
| `Session.OnCallback` | bot_telegram.py:356-377 | Edit only sets the correction flag. Save copies the last transcription, or `""` if there is none, to the final one and clears the flag. Other data, or no query, change nothing. |
| `Session.SaveIdempotent` | bot_telegram.py:372-377 | Pressing Save twice gives the same state and reply as pressing it once. |
| `Session.FlagsNotExclusive` | bot_telegram.py:356-404 | A new audio while a correction is awaited, or Edit while a choice is awaited, leaves both waiting flags set. |
| `Session.Pipeline` | bot_telegram.py:148-257 | Audio over the ceiling gets guidance only: no request and no state change. Otherwise at most three segments are requested, in order, and a missing answer aborts with nothing stored. CANTO stores the transcript, clears the correction flag and produces no prompt and no story. VOZ leaves the session unchanged, and sends the truncated transcript and a story of summary and transcript. |
| `Session.ModeRouting` | bot_telegram.py:203-257 | A dispatched CANTO run always ends in the sung review and never in a summary. A VOZ run always ends in a summary. |
| `Session.SungFlow` | bot_telegram.py:203-377 | After a CANTO run, Edit followed by a text makes that text, stripped, final. Save instead makes the transcript itself final. In both cases no correction is awaited afterwards. |
| `Session.SixtyMinutes` | bot_telegram.py:148-165 | A 60-minute audio gets the guidance message and sends no segment. |
| `Session.UserSession.HandleAudio` | bot_telegram.py:379-404 | The fields change as `OnAudio` prescribes. |
| `Session.UserSession.AudioTypeHandler` | bot_telegram.py:310-337 | The fields and the reply are as `OnChoice` prescribes. |
| `Session.UserSession.CorrectionHandler` | bot_telegram.py:340-353 | The fields and the reply are as `OnCorrection` prescribes. |
| `Session.UserSession.CantoCallbackHandler` | bot_telegram.py:356-377 | The fields and the reply are as `OnCallback` prescribes. |
| `Session.UserSession.ProcessAudio` | bot_telegram.py:91-288 | The requests, the outcome and the new fields are those of `Pipeline` for the old fields. |

## Left out

- Telegram I/O is not modelled: sent and edited messages, their texts, inline keyboards, `query.answer()`, file download and document delivery. Handlers return an abstract reply instead.
- The "file too large" download path (bot_telegram.py:110-126) is not modelled. It classifies foreign exception messages by substring.
- Decoding, the stereo advisory and the mp3 export of each segment (bot_telegram.py:133-146, 189-193) are not modelled. The model takes the decoded length in milliseconds as given. pydub's conversion of milliseconds to frames when slicing, with its rounding, is not modelled.
- The Whisper and chat requests are not modelled (bot_telegram.py:196-200, 245-254). This covers the model names, the language hint, the system message and the temperature. The model keeps only the texts the providers return and the user prompt.
- Only the transcription failure from the general error handler (bot_telegram.py:282-288) is modelled. Failures in download, decoding, summarization or rendering are not.
- PDF rendering is not modelled: styles, page size and margins, the build, its failure-to-`None` path, the clock-based file name (bot_telegram.py:43-86), and the messages after it (bot_telegram.py:259-280). Only the story's content is.
- `create_task` scheduling and races between one user's overlapping requests (bot_telegram.py:335-337) are not modelled. The pipeline runs as one step on the session.
- Handler registration and dispatch order (bot_telegram.py:426-436) are not modelled. Each handler's transition is modelled on its own. In python-telegram-bot only the first matching handler of a group runs. `audio_type_handler` is registered first with the same filter as `correction_handler`, so in the running bot the correction transition may never be reached.
- Environment loading, logging, `start_command`, `echo` and `main` are not modelled. They are configuration and fixed replies.
- `Text.Upper`: upper-cases ASCII letters only. Python's full Unicode upper-casing (`'ß'` to `"SS"`, for instance) is not modelled.
- `Audio.ExceedsCeiling`: computes the guard's division over exact reals, not binary floating point. Correctly rounded division cannot move a quotient above 50 down to 50 or below, so the verdict is the same.
