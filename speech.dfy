/**
 * The status-to-result mapping of the speech-synthesis client, and how the
 * pipeline decides whether it has audio to play.
 */
module Speech {
  import opened Wrappers
  import opened Types

  /** The vendor's reply: status code, raw audio content, body text. */
  datatype SpeechReply = SpeechReply(status: int, content: Audio, body: string)

  /** What the turn shows for speech: the audio, or an error whose detail may be missing. */
  datatype SpeechShown = Played(audio: Audio) | SpeechError(detail: Option<string>)

  /** The client's (audio, error) pair: the content on status 200, otherwise an error carrying the body. */
  function SpeechOutcome(reply: SpeechReply): (r: Result<Audio, string>)
    ensures r.Ok? <==> reply.status == 200
    ensures r.Ok? ==> r.value == reply.content
    ensures r.Err? ==> r.error == "TTS error: " + reply.body
  {
    if reply.status == 200 then Ok(reply.content) else Err("TTS error: " + reply.body)
  }

  /** The pipeline plays audio only when it is truthy, that is non-empty; otherwise it shows the client's error. */
  function Shown(r: Result<Audio, string>): SpeechShown
  {
    if r.Ok? && |r.value| > 0 then Played(r.value)
    else SpeechError(if r.Err? then Some(r.error) else None)
  }

  /** Audio is played exactly when the vendor answers 200 with non-empty content, and then it is that content. */
  lemma PlayedIff(reply: SpeechReply, a: Audio)
    ensures Shown(SpeechOutcome(reply)) == Played(a) <==> reply.status == 200 && |reply.content| > 0 && a == reply.content
  {
  }

  /** An empty 200 reply is shown as an error with no detail (the client returned no error text). */
  lemma EmptyAudioHasNoDetail(reply: SpeechReply)
    requires reply.status == 200 && reply.content == []
    ensures Shown(SpeechOutcome(reply)) == SpeechError(None)
  {
  }
}
