# Meeting recorder core, modelled in Dafny

This project models the logic of a web application that records or uploads
a meeting, transcribes it, summarizes it, extracts action items and
exports the summary to a document service. It covers five parts of the
application:

- **Audio capture component** (`AudioCapture`, `audio_processor.dfy`). The
  recording state machine is a class whose fields are the component's
  state. Its states are `idle`, `recording`, `paused` and `stopped`. It
  holds the recorded blob, its preview URL, the elapsed-seconds counter,
  the chunk buffer, the recorder handle and the timer. Each handler is a
  method. The browser's asynchronous callbacks are methods too:
  `DataAvailable`, `OnStop` and the one-second timer `Tick`. The
  microphone answer to `getUserMedia` is a parameter.
- **Results component** (`MeetingResults`, `meeting_results.dfy`). It
  covers:
  - copying action items as text;
  - splitting the transcript into speaker lines;
  - choosing which card is shown;
  - the export button's disabled condition;
  - the export handler. This is a class whose `isExporting` flags are set
    before the export call and cleared after it.
- **Home page** (`Home`, `page.dfy`). The processing pipeline is run as:
  encode, upload, transcribe, then summarize and extract. It is written
  twice:
  - as the specification function `Run`, which returns the calls made,
    each value given to the loading flags, and the final state;
  - as the class method `HandleAudioProcessing`, which is proved equal to
    `Run`.

  Collaborators are functions from their input to an outcome: a value, or
  the message of the error they threw.
- **Notion export service** (`NotionService`, `notion_service.dfy`):
  - the nested loop that cuts text into paragraph blocks of at most 2000
    characters;
  - the two configuration guards checked before any request is built;
  - the mapping from API errors to messages.
- **Recordings list** (`RecordingsList`, `recordings_list.dfy`): the
  duration text `minutes:ss`, and the list view with one row per
  recording.

Two shared modules support them:

- `Text` gives JavaScript's string built-ins the same semantics:
  - `trim`, `startsWith`, `includes`;
  - `split` and `join` on one character;
  - `toString` on naturals (the signed form is `RecordingsList.IntToDecimal`);
  - `padStart`.
- `Outcomes` holds `Option`, `Result`, toasts, and JavaScript truthiness
  of optional strings.

## Model

| member | source | states |
|---|---|---|
| AudioCapture.FormatTimeFields | src/components/audio-processor.tsx:32-36 | `formatTime(s)` is `MM:SS`. The minutes field has at least two digits. The seconds field has exactly two digits and is below 60. minutes * 60 + seconds gives back `s`. |
| AudioCapture.ChunkBytesAppend | src/components/audio-processor.tsx:76-86 | Appending a chunk appends its bytes to the assembled blob's bytes, so chunk order is kept. |
| AudioCapture.AudioProcessor.constructor | src/components/audio-processor.tsx:41-49 | Starts in `idle` with no blob, no preview, an empty transcript, 0 seconds, no recorder, no chunks and no timer. |
| AudioCapture.AudioProcessor.StartTimer | src/components/audio-processor.tsx:51-56 | Any running interval is replaced by one; only the timer changes. |
| AudioCapture.AudioProcessor.StopTimer | src/components/audio-processor.tsx:58-63 | The timer is cleared; nothing else changes. |
| AudioCapture.AudioProcessor.Tick | src/components/audio-processor.tsx:53-55 | An interval tick adds one second to the elapsed time and changes nothing else. |
| AudioCapture.AudioProcessor.StartRecording | src/components/audio-processor.tsx:65-104 | Microphone granted: chunks, blob, preview and transcript are cleared, the elapsed time is 0, a capturing recorder exists, the status is `recording` and the timer runs. Microphone refused: every field is unchanged and the microphone toast is returned. Recorder refused after the grant: the fields are cleared but the status is kept. The component invariant holds afterwards, except in the last case when started from `stopped`. |
| AudioCapture.AudioProcessor.DataAvailable | src/components/audio-processor.tsx:76-82 | A non-empty chunk is appended at the end of the buffer. An empty chunk changes nothing. The buffer's bytes grow by exactly the chunk's bytes. |
| AudioCapture.AudioProcessor.OnStop | src/components/audio-processor.tsx:84-92 | The blob is all buffered chunks assembled in order, with type `audio/webm`. The preview is that blob's URL. The status is `stopped`, the stream is closed and the timer is cleared. |
| AudioCapture.AudioProcessor.PauseRecording | src/components/audio-processor.tsx:107-113 | From `recording` with a live recorder: the recorder is suspended, the status becomes `paused` and the timer stops, with the elapsed time kept. From `recording` with an inactive recorder (stop requested, its stop callback not yet run): `pause()` throws, `threw` is true and nothing changes. From any other status: no change and no throw. |
| AudioCapture.AudioProcessor.ResumeRecording | src/components/audio-processor.tsx:115-121 | From `paused` with a live recorder: the recorder captures again, the status becomes `recording` and the timer restarts, with the elapsed time not reset. From `paused` with an inactive recorder: `resume()` throws, `threw` is true and nothing changes. From any other status: no change and no throw. |
| AudioCapture.AudioProcessor.StopRecording | src/components/audio-processor.tsx:123-127 | A stop is requested exactly from `recording` or `paused`. Only the recorder becomes inactive; the blob arrives with `OnStop`. |
| AudioCapture.AudioProcessor.ResetRecording | src/components/audio-processor.tsx:129-141 | From any state: `idle`, no blob or preview, an empty transcript and buffer, 0 seconds, no recorder and no timer. The stream is closed when a recorder existed. |
| AudioCapture.AudioProcessor.HandleProcessAudio | src/components/audio-processor.tsx:143-147 | The recorded blob is forwarded exactly when there is one, which under the invariant is exactly in `stopped`. |
| AudioCapture.AudioProcessor.HandleFileChange | src/components/audio-processor.tsx:149-167 | A file is accepted exactly when its type starts with `audio/`. Accepted: it becomes the blob and the preview, the status is `stopped`, and it is forwarded once. Rejected: the invalid-type toast is returned and the state is unchanged. No file: nothing happens. |
| AudioCapture.AudioProcessor.TimerLabel | src/components/audio-processor.tsx:228-238 | The timer is shown exactly in `recording` or `paused`, as `formatTime` of the elapsed seconds. |
| AudioCapture.OfferedControlsTakeEffect | src/components/audio-processor.tsx:169-226 | Every button rendered when not processing finds the state its handler acts on. Pause and Resume find a recorder in the expected status. Stop finds a recording in progress. Process finds a blob. Record finds no recorder and no timer. |
| MeetingResults.ActionItemsCopyLines | src/components/meeting-results.tsx:48-50 | An empty list copies as the empty string. Otherwise, when no field holds a newline, splitting the copied text on newlines gives back one formatted line per item, in order. |
| MeetingResults.ActionItemsTextStart | src/components/meeting-results.tsx:49 | The copied text of a non-empty list starts with `- `. |
| MeetingResults.EntryOfParts | src/components/meeting-results.tsx:56-68 | A line starting with `Speaker` becomes a speaker line. The speaker holds no `:`. If the line has a colon, speaker + `:` + text is the line; otherwise the speaker is the whole line and the text is empty. Any other line is kept as plain text. |
| MeetingResults.FormatTranscript | src/components/meeting-results.tsx:52-70 | The result is null exactly when the transcript is missing or empty. A present, non-empty transcript gives a list, possibly empty (for instance when every line is blank), of at most one entry per line. |
| MeetingResults.TwoSpeakerLines | src/components/meeting-results.tsx:52-70 | Two newline-separated `Speaker…: text` lines without extra colons give exactly two speaker entries, in order, split at the colon. |
| MeetingResults.TwoSpeakerTranscript | src/components/meeting-results.tsx:52-70 | `"Speaker 1: Hello\nSpeaker 2: Hi"` gives the entries (`Speaker 1`, ` Hello`) and (`Speaker 2`, ` Hi`). |
| MeetingResults.SelectView | src/components/meeting-results.tsx:82-129 | The shown card, in priority order: 1. uploading; 2. transcribing; 3. the failure card, exactly when neither flag is on, there is a non-empty error and no transcript, showing the error; 4. nothing, when there is no transcript; 5. the results, exactly when neither flag is on and the transcript is non-empty. |
| MeetingResults.ExportFlags.With | src/components/meeting-results.tsx:141 | Setting one service's flag leaves the other service's flag unchanged. |
| MeetingResults.ExportOneAtATime | src/components/meeting-results.tsx:187-204 | An enabled export button means no export is running. Starting one turns on exactly that service's flag, and then both buttons are disabled. |
| MeetingResults.ExportContentTail | src/components/meeting-results.tsx:145 | The content starts with the summary and the `Action Items:` heading. What follows is `None` exactly when the items are absent. It is empty for an empty list and the copied items text otherwise. |
| MeetingResults.ExportToast | src/components/meeting-results.tsx:153-168 | The toast is destructive exactly on failure. Its title is `Export Successful!` on success and `Export Failed` on failure. On success the description is the document link; on failure it is the error message, or `Failed to export to <service>.` when the message is empty. |
| MeetingResults.ExportControls.constructor | src/components/meeting-results.tsx:80 | Both export flags start false (no export in flight), and the flag history is empty. |
| MeetingResults.ExportControls.HandleExport | src/components/meeting-results.tsx:131-172 | Without a summary title and body: the no-summary toast is returned, no request is made and no flag changes. Otherwise: one request carries the title and the content; the service's flag is set on and then off, whatever the outcome; the other flag is untouched. |
| Home.LoadingDiscipline | src/app/page.tsx:44-93 | A run clears every flag, then raises the upload flag alone. At most one flag is on at every step. The run ends with all flags off. The page reports processing at every step strictly between the first and the last. |
| Home.TranscribeOnlyAfterUpload | src/app/page.tsx:58-65 | Upload is called only after encoding, and with the URI it gave. Transcription is called only after that URI's upload succeeded. |
| Home.UploadFailureStops | src/app/page.tsx:57-89 | When encoding or upload fails with message m, the error is `m` or, when m is empty, `An unknown error occurred.`; it is never empty. Nothing is transcribed, summarized or extracted. No transcript, summary or items are set. |
| Home.TranscriptionFailureStops | src/app/page.tsx:65-89 | When transcription fails with message m after a successful upload, the error is `m` or the unknown-error text when m is empty, and is never empty. No summary or extraction call is made. No transcript, summary or items are set. |
| Home.EmptyTranscriptStops | src/app/page.tsx:65-69 | An empty transcript fails with `Transcription failed to produce a result.`. No analysis call is made and no transcript is kept. |
| Home.AnalysisAllOrNothing | src/app/page.tsx:70-83 | Both analysis calls receive the transcript. The summary and the items are set together, exactly when both calls succeed, and then there is no error. On a failure the error is a failed call's message, with `An unknown error occurred.` used when that message is empty. The transcript stays. |
| Home.RunEndsCompleteOrFailed | src/app/page.tsx:52-93 | A run ends either complete (transcript, summary and items, no error) or with a non-empty error and neither summary nor items. |
| Home.ViewAfterRun | src/app/page.tsx:102-108 | After a run that stopped before a transcript, the results component shows the failure card with the error. Otherwise it shows the results. |
| Home.CaptureLockedWhileProcessing | src/app/page.tsx:98-101 | While a run is in progress, `isProcessing` is true and the capture component offers only the processing spinner. |
| Home.HomePage.constructor | src/app/page.tsx:34-42 | Starts with nothing set, all flags off and no error. |
| Home.HomePage.ResetState | src/app/page.tsx:44-50 | Transcript, summary, items and error are cleared, and all flags are off. |
| Home.HomePage.SetLoading | src/app/page.tsx:54 | Only the loading flags change. |
| Home.HomePage.HandleAudioProcessing | src/app/page.tsx:52-93 | The final state, the calls made and every loading value are those of `Run`, which the lemmas above characterise. The returned toast is the destructive `Error` toast carrying the error message exactly when the run ends with an error, and there is none otherwise. |
| Home.HomePage.TryPipeline | src/app/page.tsx:57-80 | The `try` block, entered with the results cleared and the upload flag raised. It makes exactly the calls of `Run` and sets the loading flags `Run` sets between its first two steps and its last. What it throws, once the error is set from it and the flags are cleared, yields the final state of `Run`. When something is thrown, no summary or items are set. |
| NotionService.PiecesProperties | src/services/notion-service.ts:14-35 | Each piece holds 1 to 2000 characters, and all but the last hold exactly 2000. Concatenated they give the line back. A line of length n gives ceil(n / 2000) pieces. |
| NotionService.ParagraphBlocksProperties | src/services/notion-service.ts:26-43 | Every block holds 1 to 2000 characters. The blocks' contents concatenated equal the non-blank paragraphs concatenated. |
| NotionService.ParagraphBlocksAppend | src/services/notion-service.ts:28-44 | The blocks of a list of paragraphs are the blocks of a prefix followed by the blocks of the rest. |
| NotionService.BlankAndNonBlankParagraphs | src/services/notion-service.ts:23-34 | Empty text gives no blocks. A blank paragraph contributes nothing wherever it stands. A non-blank paragraph of length n gives ceil(n / 2000) blocks. |
| NotionService.TextToNotionBlocks | src/services/notion-service.ts:21-46 | The nested loops produce exactly the blocks of the paragraphs, in paragraph and piece order. |
| NotionService.PushChunks | src/services/notion-service.ts:34-43 | The inner loop appends one block per 2000-character piece of the paragraph, in order. |
| NotionService.ApiErrorMessage | src/services/notion-service.ts:101-105 | The body's message is used when it is non-empty, the error's own otherwise. A message containing `Could not find page with ID` maps to the parent-page message. Any other becomes `Failed to create Notion page: ` + the message. |
| NotionService.PageNotFoundAnywhere | src/services/notion-service.ts:101-104 | The page-not-found text anywhere in the message selects the parent-page message. |
| NotionService.CreateNotionPage | src/services/notion-service.ts:62-107 | A missing or placeholder API key is refused first, then a missing or placeholder page ID, each with its own message and before any request exists. Otherwise exactly one request carries the key, the page ID, the title and the content's blocks. A created page is returned; a rejection is reported through `ApiErrorMessage`. |
| RecordingsList.DurationComponents | src/components/recordings-list.tsx:15-17 | For a non-negative duration, the remaining seconds lie in 0..59, and minutes * 60 + seconds is the duration rounded down. |
| RecordingsList.DurationText | src/components/recordings-list.tsx:15-19 | For a non-negative duration the text is the unpadded minutes numeral, a colon and exactly two digits. Read back, these give seconds below 60, and minutes * 60 + seconds equals the duration rounded down. |
| RecordingsList.MinutesSecondsText | src/components/recordings-list.tsx:18 | `m:ss` puts `m` unpadded before the colon and `sec` as two digits after it. Both read back to their values. |
| RecordingsList.IntToDecimalReadsBack | src/components/recordings-list.tsx:18 | The text of an integer starts with `-` exactly when the integer is negative. The characters after the sign are all digits, and their decimal value is the integer's absolute value. |
| RecordingsList.Trunc | src/components/recordings-list.tsx:17 | The truncation toward zero inside JavaScript's `%`, used by `JsRem` for `seconds % 60`: for x >= 0 the result t satisfies t <= x < t + 1; for x < 0 it satisfies t - 1 < x <= t. |
| RecordingsList.RenderRecordings | src/components/recordings-list.tsx:28-61 | The empty list gives the no-recordings message. Otherwise there is one row per recording, in input order, each built from that recording. |
| RecordingsList.RowsAppend | src/components/recordings-list.tsx:43 | The rows of a concatenation of recordings are the rows of its parts, concatenated. |
| Text.TrimEmptyIffBlank | src/components/meeting-results.tsx:55 | `s.trim() === ''` holds exactly when every character is whitespace. |
| Text.TrimIsEmpty | src/services/notion-service.ts:31 | Evaluates `s.trim() === ''`, true exactly for blank strings. |
| Text.NonBlankLines | src/components/meeting-results.tsx:55 | The kept lines are exactly the lines that are not all whitespace (by `Text.TrimEmptyIffBlank`, the lines whose trim is non-empty), and there are no more of them than lines. |
| Text.NonBlankLinesAppend | src/components/meeting-results.tsx:55 | Filtering distributes over concatenation, so the order of lines is kept. |
| Text.JoinSplit | src/components/meeting-results.tsx:57-59 | Joining the pieces of a split with the same separator gives the string back. |
| Text.SplitJoin | src/components/meeting-results.tsx:49-55 | Splitting a join of separator-free pieces gives the pieces back. |
| Text.SplitPiecesFree | src/components/meeting-results.tsx:57-58 | No piece of a split contains the separator. |
| Text.SplitWithSep | src/components/meeting-results.tsx:57-59 | A string containing the separator splits into at least two pieces. |
| Text.SplitAtFirstSep | src/components/meeting-results.tsx:57-59 | Splitting at the first separator gives the part before it, followed by the split of the rest. |
| Text.DecimalRoundTrip | src/components/audio-processor.tsx:35 | The decimal numeral of n reads back as n. |
| Text.ZeroPadValue | src/components/audio-processor.tsx:35 | Padding a numeral with leading zeros keeps it a numeral with the same value. |
| Text.PadStart | src/components/audio-processor.tsx:35 | `padStart`: the width is reached, the original string is the suffix, and the pad character fills the front. |
| Text.ContainsInfix | src/services/notion-service.ts:102 | `includes` finds a substring wherever it stands. |

## Left out

- Encoding a blob as a base64 data URI (`FileReader`) is a collaborator (`encode`). Its result is an opaque string.
- `getUserMedia`, the `MediaRecorder` and `URL.createObjectURL` are not modelled as code:
  - the microphone answer is a parameter;
  - the recorder's events are methods;
  - an object URL is a value naming its blob.
- Stopping media tracks is not modelled; an open or closed stream is a flag.
- The `Promise.all` join runs both analysis calls concurrently, which is not modelled. Both outcomes are inputs. When both calls fail, the `summarizeRejectsFirst` input decides whose message wins.
- React's batching of state updates is not modelled. `HandleAudioProcessing` and `HandleExport` apply each setter in order, and their ghost logs record only part of what is set: `HomePage` logs the collaborator calls and every value given to the loading flags, and `HandleExport` logs every value given to the export flags. The transcript, summary and error setters are not logged; their effect is stated on the final state.
- Components re-render between awaits, and that is not modelled. The view after a run is given by `SelectView` on the final state.
- JSX markup, styles, icons, toasts as UI and `console.error` are not modelled:
  - a toast is a returned value (or, for `HandleAudioProcessing`, its returned out-parameter);
  - a view is a datatype naming what is shown.
- The clipboard and `CopyButton`'s timeout are not modelled.
- The LLM flows (`src/ai/flows/*`) and the document-service and storage clients (`src/services/google-docs-service.ts`, `src/services/upload-audio.ts`, `src/services/get-recordings.ts`) are collaborators or are not part of this model.
- The genkit tool wrapper around `createNotionPage` is not modelled. The Notion client is a function from the request to a reply, and the environment variables are the `Config` parameter.
- JavaScript strings are UTF-16 code units; here a string is a sequence of characters.
- Numbers are exact reals: `formatDuration` takes a real and `formatTime` a natural number. Not modelled:
  - floating-point rounding;
  - `NaN` and infinities;
  - negative zero;
  - the exponent notation `toString` uses for very large numbers.
- `date-fns` date formatting is not modelled. The date cell is the created-at value once mounted on the client, and `None` while the skeleton is shown.
- AudioCapture.AudioProcessor.Tick: requires the timer to be running, because a cleared interval delivers no ticks.
- AudioCapture.AudioProcessor.StartRecording: the component invariant is not claimed after an unsupported recorder from `stopped`. In that case the blob is cleared while the status stays `stopped`, as in the source.
- The pipeline's collaborators return either a value or an error message. A collaborator that returns a transcript result with no `transcript` field is modelled as an empty transcript.
- The results component's `summary?.title || 'Meeting Summary'` heading and the copy text of the summary card are presentation and are not modelled.
- AudioCapture.AudioProcessor.PauseRecording and ResumeRecording: the `InvalidStateError` an inactive recorder throws is reported only as the `threw` result. Its propagation out of the click handler is not modelled.
