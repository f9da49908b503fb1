/**
 * The per-session controller: the conversation log, the active flag, the
 * single-flight processing flag and the last consumed recording, changed by
 * the sidebar buttons and by each accepted recording's pipeline run.
 */
module SessionControl {
  import opened Wrappers
  import opened Types
  import opened Transcription
  import opened Speech
  import opened DialogueContext

  /** The chat provider's reply: status code, its "text" field ("" when missing), raw body. */
  datatype ChatReply = ChatReply(status: int, text: string, body: string)

  /** What the pipeline sends to the chat provider; the fixed prompt wording around `context` and `utterance` is not modelled. */
  datatype ChatRequest = ChatRequest(history: seq<ChatEntry>, context: string, utterance: string)

  /** What one pipeline run shows. */
  datatype TurnReport =
    | TranscriptionError(message: string)
    | ReplyError(said: string, body: string)
    | Replied(said: string, reply: string, speech: SpeechShown)

  /** The rule for starting a pipeline: an active conversation, no run in flight, a non-empty recording that differs from the last one consumed. */
  predicate Admits(active: bool, processing: bool, last: Option<Audio>, audio: Audio)
  {
    active && !processing && |audio| > 0 && last != Some(audio)
  }

  /** The log after the transcript is considered: only a non-empty transcript is appended. */
  function WithUtterance(log: seq<Turn>, t: string): seq<Turn>
  {
    if t != "" then log + [Turn(UserRole, t)] else log
  }

  /** The log after one pipeline run; speech synthesis plays no part. */
  function PipelineLog(log: seq<Turn>, stt: Result<string, SttError>, chat: ChatReply): seq<Turn>
  {
    match stt
    case Err(_) => log
    case Ok(t) =>
      var withUser := WithUtterance(log, t);
      if chat.status == HttpOk && chat.text != "" then withUser + [Turn(BotRole, chat.text)] else withUser
  }

  /** The request sent to the chat provider, none after a transcription error. */
  function PipelineRequest(log: seq<Turn>, stt: Result<string, SttError>): Option<ChatRequest>
  {
    match stt
    case Err(_) => None
    case Ok(t) =>
      var h := ChatHistory(WithUtterance(log, t));
      Some(ChatRequest(h, ContextBlock(h), t))
  }

  /** What a pipeline run shows for the given step outcomes. */
  function Report(stt: Result<string, SttError>, chat: ChatReply, speech: SpeechReply): TurnReport
  {
    match stt
    case Err(e) => TranscriptionError(Message(e))
    case Ok(t) =>
      if chat.status != HttpOk then ReplyError(t, chat.body)
      else Replied(t, chat.text, Shown(SpeechOutcome(speech)))
  }

  // ----- properties of one pipeline run -----

  /** A run only appends, at most two turns, and keeps the log well formed. */
  lemma PipelineAppendsOnly(log: seq<Turn>, stt: Result<string, SttError>, chat: ChatReply)
    requires WellFormedLog(log)
    ensures log <= PipelineLog(log, stt, chat)
    ensures |PipelineLog(log, stt, chat)| <= |log| + 2
    ensures WellFormedLog(PipelineLog(log, stt, chat))
  {
  }

  /** A transcription error appends nothing. */
  lemma TranscriptionErrorAppendsNothing(log: seq<Turn>, e: SttError, chat: ChatReply)
    ensures PipelineLog(log, Err(e), chat) == log
    ensures PipelineRequest(log, Err(e)) == None
  {
  }

  /** A patient turn follows the old log exactly when the transcript is non-empty, and it carries the transcript. */
  lemma UserTurnIff(log: seq<Turn>, stt: Result<string, SttError>, chat: ChatReply, u: string)
    ensures (var p := PipelineLog(log, stt, chat); |p| > |log| && p[|log|] == Turn(UserRole, u))
        <==> stt == Ok(u) && u != ""
  {
  }

  /** A receptionist turn ends the new log exactly when the reply status is 200 and the reply is non-empty, and it carries the reply. */
  lemma ReplyTurnIff(log: seq<Turn>, stt: Result<string, SttError>, chat: ChatReply, r: string)
    ensures (var p := PipelineLog(log, stt, chat); |p| > |log| && p[|p| - 1] == Turn(BotRole, r))
        <==> stt.Ok? && chat.status == HttpOk && chat.text == r && r != ""
  {
  }

  /** With a non-empty transcript the provider receives the whole log before it, role-mapped and in order. */
  lemma RequestSeesPriorLog(log: seq<Turn>, t: string)
    requires t != ""
    ensures PipelineRequest(log, Ok(t)).Some?
    ensures PipelineRequest(log, Ok(t)).value.history == ToChatEntries(log)
    ensures PipelineRequest(log, Ok(t)).value.utterance == t
  {
  }

  /** With an empty transcript nothing is appended, yet the provider history still drops the last turn before it. */
  lemma EmptyUtteranceDropsLastTurn(log: seq<Turn>)
    requires log != []
    ensures PipelineRequest(log, Ok("")).Some?
    ensures PipelineRequest(log, Ok("")).value.history == ToChatEntries(log[..|log| - 1])
    ensures |PipelineRequest(log, Ok("")).value.history| == |log| - 1
  {
  }

  /** With a non-empty transcript and single-line messages, the context block lists exactly the last min(6, |log|) turns before the utterance, in order. */
  lemma RequestContextListsRecentTurns(log: seq<Turn>, t: string)
    requires t != ""
    requires forall i :: 0 <= i < |log| ==> '\n' !in log[i].message
    ensures PipelineRequest(log, Ok(t)).Some?
    ensures var n := if |log| < WindowSize then |log| else WindowSize;
      ParseContext(PipelineRequest(log, Ok(t)).value.context) == Some(ToChatEntries(log[|log| - n..]))
  {
    RequestSeesPriorLog(log, t);
    var h := ToChatEntries(log);
    assert SingleLine(h);
    ContextRoundTrip(h);
    var n := if |log| < WindowSize then |log| else WindowSize;
    WindowIsRecentSuffix(h);
    var suffix := ToChatEntries(log[|log| - n..]);
    assert Window(h) == suffix by {
      forall i | 0 <= i < n ensures Window(h)[i] == suffix[i] {
        assert log[|log| - n..][i] == log[|log| - n + i];
      }
    }
  }

  // ----- the session state -----

  class Session {
    var chatHistory: seq<Turn>
    var conversationActive: bool
    var isProcessing: bool
    var lastProcessedAudio: Option<Audio>

    ghost predicate Valid()
      reads this
    {
      WellFormedLog(chatHistory)
    }

    /** A fresh session: empty log, no conversation, no run in flight, no recording consumed. */
    constructor ()
      ensures Valid()
      ensures chatHistory == [] && !conversationActive && !isProcessing && lastProcessedAudio == None
    {
      chatHistory := [];
      conversationActive := false;
      isProcessing := false;
      lastProcessedAudio := None;
    }

    /** "Start New Conversation": empty log, active, not processing, no recording consumed. */
    method StartNewConversation()
      modifies this
      ensures Valid()
      ensures chatHistory == [] && conversationActive && !isProcessing && lastProcessedAudio == None
    {
      chatHistory := [];
      conversationActive := true;
      isProcessing := false;
      lastProcessedAudio := None;
    }

    /** "End Conversation": inactive, not processing, no recording consumed; the log is kept. */
    method EndConversation()
      requires Valid()
      modifies this
      ensures Valid()
      ensures chatHistory == old(chatHistory)
      ensures !conversationActive && !isProcessing && lastProcessedAudio == None
    {
      conversationActive := false;
      isProcessing := false;
      lastProcessedAudio := None;
    }

    /** "Clear History": empty log, not processing, no recording consumed; the active flag is kept. */
    method ClearHistory()
      modifies this
      ensures Valid()
      ensures chatHistory == [] && conversationActive == old(conversationActive)
      ensures !isProcessing && lastProcessedAudio == None
    {
      chatHistory := [];
      isProcessing := false;
      lastProcessedAudio := None;
    }

    /** The accept/suppress rule for the recorder's current value; on acceptance the run is in flight and the recording is consumed. */
    method AcceptRecording(audio: Audio) returns (accepted: bool)
      modifies this
      ensures accepted == Admits(old(conversationActive), old(isProcessing), old(lastProcessedAudio), audio)
      ensures accepted ==> isProcessing && lastProcessedAudio == Some(audio)
      ensures !accepted ==> isProcessing == old(isProcessing) && lastProcessedAudio == old(lastProcessedAudio)
      ensures chatHistory == old(chatHistory) && conversationActive == old(conversationActive)
    {
      accepted := conversationActive && !isProcessing && |audio| > 0 && lastProcessedAudio != Some(audio);
      if accepted {
        isProcessing := true;
        lastProcessedAudio := Some(audio);
      }
    }

    /** One pipeline run over the vendors' replies: transcribe, build the request, append the turns, synthesize speech, clear the flag. */
    method RunPipeline(upload: HttpReply, submit: HttpReply, polls: nat -> PollReply, chat: ChatReply, speech: SpeechReply)
      returns (request: Option<ChatRequest>, report: TurnReport)
      requires Valid()
      requires isProcessing
      modifies this
      ensures Valid()
      ensures chatHistory == PipelineLog(old(chatHistory), Outcome(upload, submit, polls), chat)
      ensures request == PipelineRequest(old(chatHistory), Outcome(upload, submit, polls))
      ensures report == Report(Outcome(upload, submit, polls), chat, speech)
      ensures !isProcessing
      ensures conversationActive == old(conversationActive) && lastProcessedAudio == old(lastProcessedAudio)
    {
      PipelineAppendsOnly(chatHistory, Outcome(upload, submit, polls), chat);
      var transcript, polled := Transcribe(upload, submit, polls);
      match transcript
      case Err(e) =>
        isProcessing := false;
        request := None;
        report := TranscriptionError(Message(e));
      case Ok(t) =>
        if t != "" {
          chatHistory := chatHistory + [Turn(UserRole, t)];
        }
        var history := ChatHistory(chatHistory);
        var context := BuildContext(history);
        request := Some(ChatRequest(history, context, t));
        if chat.status == HttpOk {
          if chat.text != "" {
            chatHistory := chatHistory + [Turn(BotRole, chat.text)];
          }
          report := Replied(t, chat.text, Shown(SpeechOutcome(speech)));
        } else {
          report := ReplyError(t, chat.body);
        }
        isProcessing := false;
    }

    /** The recorder's current value on one render: the pipeline runs on it when it is admitted, otherwise nothing changes. */
    method HandleRecording(audio: Audio, upload: HttpReply, submit: HttpReply, polls: nat -> PollReply,
                           chat: ChatReply, speech: SpeechReply)
      returns (accepted: bool, request: Option<ChatRequest>, report: Option<TurnReport>)
      requires Valid()
      modifies this
      ensures Valid()
      ensures accepted == Admits(old(conversationActive), old(isProcessing), old(lastProcessedAudio), audio)
      ensures accepted ==> lastProcessedAudio == Some(audio) && !isProcessing
      ensures accepted ==> chatHistory == PipelineLog(old(chatHistory), Outcome(upload, submit, polls), chat)
      ensures accepted ==> request == PipelineRequest(old(chatHistory), Outcome(upload, submit, polls))
      ensures accepted ==> report == Some(Report(Outcome(upload, submit, polls), chat, speech))
      ensures !accepted ==> request == None && report == None
      ensures !accepted ==> chatHistory == old(chatHistory)
      ensures !accepted ==> isProcessing == old(isProcessing) && lastProcessedAudio == old(lastProcessedAudio)
      ensures conversationActive == old(conversationActive)
    {
      request, report := None, None;
      accepted := AcceptRecording(audio);
      if accepted {
        var req, rep := RunPipeline(upload, submit, polls, chat, speech);
        request, report := req, Some(rep);
      }
    }
  }

  // ----- whole-session scenarios -----

  /** Start, one recording transcribed to `t`, reply `r`, speech `b`: the log is the two turns and the run is over. */
  method EndToEndTurn(audio: Audio, t: string, r: string, b: Audio)
    returns (log: seq<Turn>, report: Option<TurnReport>, processing: bool)
    requires |audio| > 0 && t != "" && r != "" && |b| > 0
    ensures log == [Turn(UserRole, t), Turn(BotRole, r)]
    ensures report == Some(Replied(t, r, Played(b)))
    ensures !processing
  {
    var s := new Session();
    s.StartNewConversation();
    var polls := (i: nat) => PollReply(Some("completed"), Some(t), None);
    FirstTerminalAt(polls, 0);
    var accepted, request;
    accepted, request, report := s.HandleRecording(audio, HttpReply(HttpOk, ""), HttpReply(HttpOk, ""), polls,
                                                   ChatReply(HttpOk, r, ""), SpeechReply(200, b, ""));
    log, processing := s.chatHistory, s.isProcessing;
  }

  /** The same recording seen again on the next render does not run the pipeline again. */
  method ReplayedRecordingIgnored(audio: Audio, upload: HttpReply, submit: HttpReply, polls: nat -> PollReply,
                                  chat: ChatReply, speech: SpeechReply)
    returns (first: bool, second: bool, logAfterFirst: seq<Turn>, logAfterSecond: seq<Turn>)
    requires |audio| > 0
    ensures first && !second
    ensures logAfterSecond == logAfterFirst
  {
    var s := new Session();
    s.StartNewConversation();
    var req, rep;
    first, req, rep := s.HandleRecording(audio, upload, submit, polls, chat, speech);
    logAfterFirst := s.chatHistory;
    second, req, rep := s.HandleRecording(audio, upload, submit, polls, chat, speech);
    logAfterSecond := s.chatHistory;
  }

  /** "Clear History" forgets the consumed recording, so the same recording is admitted again and sees an empty log. */
  method ClearedHistoryReadmitsRecording(audio: Audio, upload: HttpReply, submit: HttpReply, polls: nat -> PollReply,
                                         chat: ChatReply, speech: SpeechReply)
    returns (again: bool, request: Option<ChatRequest>)
    requires |audio| > 0
    ensures again
    ensures request == PipelineRequest([], Outcome(upload, submit, polls))
  {
    var s := new Session();
    s.StartNewConversation();
    var first, req, rep := s.HandleRecording(audio, upload, submit, polls, chat, speech);
    s.ClearHistory();
    again, request, rep := s.HandleRecording(audio, upload, submit, polls, chat, speech);
  }

  /** A recording made while no conversation is active is ignored. */
  method InactiveSessionIgnoresRecording(audio: Audio, upload: HttpReply, submit: HttpReply, polls: nat -> PollReply,
                                         chat: ChatReply, speech: SpeechReply)
    returns (accepted: bool, log: seq<Turn>)
    ensures !accepted && log == []
  {
    var s := new Session();
    var req, rep;
    accepted, req, rep := s.HandleRecording(audio, upload, submit, polls, chat, speech);
    log := s.chatHistory;
  }

  /** A transcription that fails with "bad audio" reports it, appends nothing and clears the flag. */
  method FailedTranscriptionKeepsLog(audio: Audio, chat: ChatReply, speech: SpeechReply)
    returns (log: seq<Turn>, report: Option<TurnReport>, processing: bool)
    requires |audio| > 0
    ensures log == []
    ensures report == Some(TranscriptionError("Transcription failed: bad audio"))
    ensures !processing
  {
    var s := new Session();
    s.StartNewConversation();
    var polls := (i: nat) => PollReply(Some("failed"), None, Some("bad audio"));
    FailureCarriesReason(polls);
    var accepted, request;
    accepted, request, report := s.HandleRecording(audio, HttpReply(HttpOk, ""), HttpReply(HttpOk, ""), polls,
                                                   chat, speech);
    log, processing := s.chatHistory, s.isProcessing;
  }
}
