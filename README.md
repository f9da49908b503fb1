# Hospital receptionist voice assistant: a Dafny model of its decision logic

The application is one Streamlit script (`app.py`). It records a spoken message and sends it
to a speech-to-text vendor, polling until the transcript is ready. It then passes the transcript
and a window of the conversation so far to a chat-completion vendor, and has the reply spoken by
a text-to-speech vendor. The decision logic inside that glue is modelled here, with every vendor
replaced by the replies it could give:

- `wrappers.dfy` (`Wrappers`): `Option` and `Result`.
- `types.dfy` (`Types`): bytes and audio, the `chat_history` entry `Turn` with its role strings
  `"USER"` / `"CHATBOT"`, and the invariant that every stored turn has one of those roles and a
  non-empty message.
- `transcription.dfy` (`Transcription`): `transcribe_with_assemblyai`. It checks the upload and
  job-submission status codes, then polls at most 60 times. It returns the text on the first
  `"completed"`, the vendor's reason on the first `"failed"`, and a timeout otherwise. The
  method `Transcribe` keeps the source's `for` loop with early returns. It is proved equal to
  the function `Outcome`, and it reports how many polls it made (`PollsMade`).
- `speech.dfy` (`Speech`): the status-to-result mapping of `tts_with_elevenlabs`. It also
  models how the pipeline decides whether there is audio to play: it tests the bytes for
  truthiness, so an empty 200 reply counts as an error.
- `dialogue_context.dfy` (`DialogueContext`): the history sent to the chat vendor. That is
  every log entry but the last (`[:-1]`), with roles mapped to `USER` / `CHATBOT`. It also
  builds the context block: a header, one labelled line for each of the last 6 entries
  ("Patient" / "You (Receptionist)"), then a footer. The block is empty when the history is.
  `BuildContext` keeps the source's `+=` loop and is proved equal to `ContextBlock`.
  `ParseContext` reads a block back, so the block is shown to list exactly the windowed
  entries in order.
- `session.dfy` (`SessionControl`): the `st.session_state` keys as the fields of class
  `Session`. It has the three sidebar buttons and the accept/suppress rule for a recording.
  `RunPipeline` runs transcribe → build the request → reply → speak. It calls `Transcribe`,
  `BuildContext` and `SpeechOutcome`, takes the vendors' replies as parameters, and always
  ends with the processing flag cleared. The pure functions `PipelineLog`, `PipelineRequest`
  and `Report` state what a run does to the log, what it sends and what it shows. A few
  scenario methods drive one `Session` through several events.

Three behaviours of the code that are easy to miss:
- "Clear History" and "End Conversation" also reset the processing flag and forget the last
  recording.
- The speech vendor is called even when the reply is empty.
- With an empty transcript the provider history still loses the last earlier turn (see
  `EmptyUtteranceDropsLastTurn`). So the history is not always "the whole log before the
  current utterance".

Abstractions:
- The recorder's "no recording" (`None`) and an empty recording (`b""`) are both falsy in the
  source. Both are modelled as the empty `Audio`.
- Every transcription error string is non-empty, so the pipeline's `if err:` test is the same
  as the result being `Err`.
- The poll replies are a total function from the poll index to the reply, so the model places
  no requirement on how many replies the vendor gives.
- A missing chat `"text"` field is passed in as `""`, which is the default `.get("text", "")`
  gives.

## Model

| member | source | states |
|---|---|---|
| `Transcription.Message` | app.py:86-112 | every error string the client returns is non-empty (so the caller's `if err:` fires); a failed job's string is "Transcription failed: " followed by the reason |
| `Transcription.FirstTerminal` | app.py:104-110 | the index it gives is within the 60-poll bound, is terminal ("completed" or "failed") when below the bound, and every earlier poll is non-terminal |
| `Transcription.FirstTerminalAt` | app.py:104-110 | a terminal poll preceded only by non-terminal polls is the one the loop stops at |
| `Transcription.Transcribe` | app.py:78-112 | the loop method returns exactly `Outcome` of the vendor replies and makes exactly `PollsMade` polls |
| `Transcription.RejectedRequestsSkipPolling` | app.py:85-100 | a non-200 upload gives the upload error, and otherwise a non-200 submit gives the request error, both carrying the body, with zero polls made |
| `Transcription.PollingIsBounded` | app.py:104 | no more than 60 polls are ever made |
| `Transcription.CompletedIff` | app.py:104-108 | the client returns text `t` if and only if both requests succeeded and some poll within 60 is "completed" with text `t` and every earlier poll is non-terminal |
| `Transcription.FailedIff` | app.py:104-110 | the client reports a failed job with a reason if and only if both requests succeeded and the first terminal poll within 60 is "failed" with that reason (missing reason: "Unknown error") |
| `Transcription.TimedOutIff` | app.py:104-112 | the client times out if and only if both requests succeeded and none of the 60 polls is terminal |
| `Transcription.CompletedOnLastPoll` | app.py:104-108 | "processing" for 59 polls and "completed" on poll 60 returns the transcript after 60 polls, with no timeout |
| `Transcription.ProcessingThroughoutTimesOut` | app.py:104-112 | "processing" on all 60 polls returns the timeout error with its fixed message |
| `Transcription.FailureCarriesReason` | app.py:109-110 | a "failed" poll with error "bad audio" returns the failure carrying "bad audio", and its message is "Transcription failed: bad audio" |
| `Speech.SpeechOutcome` | app.py:125-129 | the result is the audio content exactly when the status is 200; otherwise it is an error "TTS error: " followed by the body |
| `Speech.PlayedIff` | app.py:286-293 | audio is played if and only if the vendor answered 200 with non-empty content, and then it is that content |
| `Speech.EmptyAudioHasNoDetail` | app.py:286-293 | an empty 200 reply is shown as a speech error with no detail |
| `DialogueContext.ToChatEntry` | app.py:227 | role "USER" maps to USER and any other role to CHATBOT; the message passes through unchanged |
| `DialogueContext.ToChatEntries` | app.py:226-229 | same length as the input and each entry is the role-mapped input turn at the same position |
| `DialogueContext.ChatHistory` | app.py:226-229 | the provider history has one entry for each log turn but the last (none for an empty log), in order, role-mapped |
| `DialogueContext.BuildContext` | app.py:233-239 | the `+=` loop builds exactly `ContextBlock` of the history |
| `DialogueContext.WindowIsRecentSuffix` | app.py:236 | the window holds min(6, length) entries, and they are the most recent ones in chronological order |
| `DialogueContext.ContextEmptyIff` | app.py:233-234 | the context block is empty if and only if the provider history is empty |
| `DialogueContext.OlderEntriesDropped` | app.py:236 | entries before the last 6 never change the context block |
| `DialogueContext.WindowSlides` | app.py:236 | a new entry joins the window at the end and, when the window is full, pushes out its oldest entry |
| `DialogueContext.LinesRoundTrip` | app.py:236-238 | for single-line messages the lines decode back to the same entries: one line per entry, in order, with role and message |
| `DialogueContext.ContextRoundTrip` | app.py:233-239 | for single-line messages the context block decodes to exactly the windowed entries, in order |
| `SessionControl.PipelineAppendsOnly` | app.py:213-282 | a run keeps the old log as a prefix, appends at most two turns and keeps every turn well formed |
| `SessionControl.TranscriptionErrorAppendsNothing` | app.py:213-215 | after a transcription error the log is unchanged and no request is sent |
| `SessionControl.UserTurnIff` | app.py:222-223 | a patient turn follows the old log if and only if the transcript is non-empty, and it carries the transcript |
| `SessionControl.ReplyTurnIff` | app.py:273-282 | a receptionist turn ends the new log if and only if the transcript succeeded, the reply status is 200 and the reply text is non-empty, and it carries the reply |
| `SessionControl.RequestSeesPriorLog` | app.py:222-229 | with a non-empty transcript the provider receives the whole earlier log, role-mapped, and the transcript as the message |
| `SessionControl.EmptyUtteranceDropsLastTurn` | app.py:222-228 | with an empty transcript the provider history omits the last earlier turn and is one shorter than the log |
| `SessionControl.RequestContextListsRecentTurns` | app.py:222-239 | with a non-empty transcript and single-line messages, the context block lists exactly the last min(6, length) earlier turns, in order |
| `SessionControl.Session.constructor` | app.py:71-74 | a new session has an empty log, no active conversation, no run in flight and no recording consumed |
| `SessionControl.Session.StartNewConversation` | app.py:167-171 | the log becomes empty and the session active, not processing, with no recording consumed |
| `SessionControl.Session.EndConversation` | app.py:172-175 | the session becomes inactive, not processing, with no recording consumed; the log is untouched |
| `SessionControl.Session.ClearHistory` | app.py:176-179 | the log becomes empty, not processing, with no recording consumed; the active flag is untouched |
| `SessionControl.Session.AcceptRecording` | app.py:182-203 | a recording is accepted if and only if the session is active, not processing, and the recording is non-empty and differs from the last one consumed; acceptance sets the flag and records the recording; a rejection changes nothing |
| `SessionControl.Session.RunPipeline` | app.py:209-298 | the new log is `PipelineLog` of the old log, the transcription outcome and the reply, with no dependence on speech; the request and report are `PipelineRequest` and `Report`; it runs only with the flag set, and the flag is false on every path; the well-formedness invariant is kept |
| `SessionControl.Session.HandleRecording` | app.py:182-298 | an admitted recording sets the flag, then runs the pipeline (which requires the flag set) and clears it after; a suppressed one changes nothing and shows nothing |
| `SessionControl.EndToEndTurn` | app.py:167-298 | start, then one recording transcribed to `t`, reply `r` and speech `b`: the log is exactly [(USER, t), (CHATBOT, r)], the report shows `t`, `r` and plays `b`, and the flag is false |
| `SessionControl.ReplayedRecordingIgnored` | app.py:201-203 | the same recording seen again is ignored and the log does not change |
| `SessionControl.ClearedHistoryReadmitsRecording` | app.py:176-203 | after "Clear History" the same recording is accepted again and its request is built from an empty log |
| `SessionControl.InactiveSessionIgnoresRecording` | app.py:182 | a recording made before any conversation starts is ignored and the log stays empty |
| `SessionControl.FailedTranscriptionKeepsLog` | app.py:211-215 | a "bad audio" failure reports "Transcription failed: bad audio", appends nothing and clears the flag |

## Left out

- HTTP calls to the three vendors: they are network I/O. Their replies are parameters of the model (status codes, bodies, poll replies, reply text, audio content).
- The upload URL and job id passed from one request to the next (app.py:88, 100, 103): vendor plumbing that no decision depends on.
- A JSON `null` in a poll's `"text"` or `"error"` field: the model reads only present-or-missing fields. A null `"error"` would give "Transcription failed: None" (app.py:110).
- Exceptions raised by a vendor call: a `requests` network error, a non-JSON reply (app.py:88, 100, 106, 274), or a missing key (app.py:88, 100). The source then leaves `is_processing` set, which hides the recorder (app.py:192) until a sidebar button is pressed.
- SessionControl.Session.RunPipeline: its `!isProcessing` postcondition covers only runs that return; the exception paths above are not modelled.
- `time.sleep(1)` between polls (app.py:111): timing only.
- All Streamlit rendering: page setup, CSS, logo, `st.write`/`st.audio`/`st.error`/spinners, the recorder widget and the history expander (app.py:302-310). What a run shows is reduced to the `TurnReport` value.
- The wording of the prompt template and preamble (app.py:241-264): a request carries the context block and the utterance, not the finished prompt text. The model name, `max_tokens` 300, temperature 0.7 and the voice settings are fixed request fields that no decision depends on.
- `get_ai_reply_with_cohere` (app.py:131-161): nothing in the pipeline calls it.
- `st.secrets` credential lookup: configuration.
- Streamlit's rerun and interruption model: events are handled one at a time and each handler runs to completion. So the case where an interrupted run leaves `is_processing` set is not modelled.
- The `if "is_processing" not in st.session_state` initialisation (app.py:186-189) is folded into the constructor. A missing key and `False`/`None` read the same everywhere.
- `DialogueContext.ContextRoundTrip`, `DialogueContext.LinesRoundTrip`, `SessionControl.RequestContextListsRecentTurns`: these need messages without newlines. A message that contains `"\n"` makes the lines of the block ambiguous, so no decoding exists for it.
