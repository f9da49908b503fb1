/**
 * The decision logic of the speech-to-text client: the status checks on the
 * upload and job-submission replies, then a bounded polling loop over the
 * job's status. The vendor is abstracted to its replies.
 */
module Transcription {
  import opened Wrappers

  /** The only HTTP status treated as success. */
  const HttpOk: int := 200

  /** The number of status polls before giving up. */
  const MaxPolls: nat := 60

  const TimeoutMessage: string :=
    "Transcription timed out after 60 seconds. Please try again or use a shorter audio."

  /** A reply's status code and its raw body text. */
  datatype HttpReply = HttpReply(status: int, body: string)

  /** The JSON fields of one status poll; a field may be missing. */
  datatype PollReply = PollReply(status: Option<string>, text: Option<string>, error: Option<string>)

  /** Why a transcription produced no text. */
  datatype SttError =
    | UploadFailed(body: string)
    | RequestFailed(body: string)
    | JobFailed(reason: string)
    | TimedOut

  /** The error string handed back to the caller, always non-empty, so the caller's `if err:` fires. */
  function Message(e: SttError): (m: string)
    ensures |m| > 0
    ensures e.JobFailed? ==> m == "Transcription failed: " + e.reason
  {
    match e
    case UploadFailed(body) => "Upload failed: " + body
    case RequestFailed(body) => "Transcription request failed: " + body
    case JobFailed(reason) => "Transcription failed: " + reason
    case TimedOut => TimeoutMessage
  }

  predicate IsCompleted(p: PollReply) { p.status == Some("completed") }

  predicate IsFailed(p: PollReply) { p.status == Some("failed") }

  /** A status that ends the polling loop. */
  predicate IsTerminal(p: PollReply) { IsCompleted(p) || IsFailed(p) }

  /** The transcript of a completed job; a missing "text" field reads as "". */
  function TextOf(p: PollReply): string
  {
    match p.text
    case Some(t) => t
    case None => ""
  }

  /** The reason of a failed job; a missing "error" field reads as "Unknown error". */
  function ReasonOf(p: PollReply): string
  {
    match p.error
    case Some(r) => r
    case None => "Unknown error"
  }

  /** The index of the first terminal poll at or after `i`, or MaxPolls if none comes before the bound. */
  function FirstTerminal(polls: nat -> PollReply, i: nat): (k: nat)
    requires i <= MaxPolls
    ensures i <= k <= MaxPolls
    ensures k < MaxPolls ==> IsTerminal(polls(k))
    ensures forall j :: i <= j < k ==> !IsTerminal(polls(j))
    decreases MaxPolls - i
  {
    if i == MaxPolls then MaxPolls
    else if IsTerminal(polls(i)) then i
    else FirstTerminal(polls, i + 1)
  }

  /** What the client returns for the given vendor replies. */
  function Outcome(upload: HttpReply, submit: HttpReply, polls: nat -> PollReply): Result<string, SttError>
  {
    if upload.status != HttpOk then Err(UploadFailed(upload.body))
    else if submit.status != HttpOk then Err(RequestFailed(submit.body))
    else
      var k := FirstTerminal(polls, 0);
      if k == MaxPolls then Err(TimedOut)
      else if IsCompleted(polls(k)) then Ok(TextOf(polls(k)))
      else Err(JobFailed(ReasonOf(polls(k))))
  }

  /** How many status polls the client makes for the given vendor replies. */
  function PollsMade(upload: HttpReply, submit: HttpReply, polls: nat -> PollReply): nat
  {
    if upload.status != HttpOk || submit.status != HttpOk then 0
    else
      var k := FirstTerminal(polls, 0);
      if k == MaxPolls then MaxPolls else k + 1
  }

  /** A terminal poll preceded only by non-terminal ones is the first terminal one. */
  lemma FirstTerminalAt(polls: nat -> PollReply, k: nat)
    requires k < MaxPolls && IsTerminal(polls(k))
    requires forall j :: 0 <= j < k ==> !IsTerminal(polls(j))
    ensures FirstTerminal(polls, 0) == k
  {
  }

  /** The client: upload, submit, then poll at most MaxPolls times with early exits. */
  method Transcribe(upload: HttpReply, submit: HttpReply, polls: nat -> PollReply)
    returns (r: Result<string, SttError>, made: nat)
    ensures r == Outcome(upload, submit, polls)
    ensures made == PollsMade(upload, submit, polls)
  {
    if upload.status != HttpOk {
      return Err(UploadFailed(upload.body)), 0;
    }
    if submit.status != HttpOk {
      return Err(RequestFailed(submit.body)), 0;
    }
    made := 0;
    for i := 0 to MaxPolls
      invariant made == i
      invariant forall j :: 0 <= j < i ==> !IsTerminal(polls(j))
    {
      var reply := polls(i);
      made := made + 1;
      if IsCompleted(reply) {
        FirstTerminalAt(polls, i);
        return Ok(TextOf(reply)), made;
      } else if IsFailed(reply) {
        FirstTerminalAt(polls, i);
        return Err(JobFailed(ReasonOf(reply))), made;
      }
    }
    assert FirstTerminal(polls, 0) == MaxPolls;
    r := Err(TimedOut);
  }

  /** A failed upload or job submission ends the client before any poll. */
  lemma RejectedRequestsSkipPolling(upload: HttpReply, submit: HttpReply, polls: nat -> PollReply)
    requires upload.status != HttpOk || submit.status != HttpOk
    ensures PollsMade(upload, submit, polls) == 0
    ensures upload.status != HttpOk ==> Outcome(upload, submit, polls) == Err(UploadFailed(upload.body))
    ensures upload.status == HttpOk ==> Outcome(upload, submit, polls) == Err(RequestFailed(submit.body))
  {
  }

  /** The client never polls more than MaxPolls times. */
  lemma PollingIsBounded(upload: HttpReply, submit: HttpReply, polls: nat -> PollReply)
    ensures PollsMade(upload, submit, polls) <= MaxPolls
  {
  }

  /** The client returns text exactly when both requests succeed and the first terminal poll within the bound is "completed". */
  lemma CompletedIff(upload: HttpReply, submit: HttpReply, polls: nat -> PollReply, t: string)
    ensures Outcome(upload, submit, polls) == Ok(t) <==>
      upload.status == HttpOk && submit.status == HttpOk &&
      exists k :: 0 <= k < MaxPolls && IsCompleted(polls(k)) && TextOf(polls(k)) == t &&
        (forall j :: 0 <= j < k ==> !IsTerminal(polls(j)))
  {
    if upload.status == HttpOk && submit.status == HttpOk {
      var f := FirstTerminal(polls, 0);
      if Outcome(upload, submit, polls) == Ok(t) {
        assert IsCompleted(polls(f)) && TextOf(polls(f)) == t;
      }
      if k :| (0 <= k < MaxPolls && IsCompleted(polls(k)) && TextOf(polls(k)) == t &&
               forall j :: 0 <= j < k ==> !IsTerminal(polls(j))) {
        FirstTerminalAt(polls, k);
      }
    }
  }

  /** The client reports a failed job exactly when the first terminal poll within the bound is "failed", carrying its reason. */
  lemma FailedIff(upload: HttpReply, submit: HttpReply, polls: nat -> PollReply, reason: string)
    ensures Outcome(upload, submit, polls) == Err(JobFailed(reason)) <==>
      upload.status == HttpOk && submit.status == HttpOk &&
      exists k :: 0 <= k < MaxPolls && IsFailed(polls(k)) && ReasonOf(polls(k)) == reason &&
        (forall j :: 0 <= j < k ==> !IsTerminal(polls(j)))
  {
    if upload.status == HttpOk && submit.status == HttpOk {
      var f := FirstTerminal(polls, 0);
      if Outcome(upload, submit, polls) == Err(JobFailed(reason)) {
        assert IsFailed(polls(f)) && ReasonOf(polls(f)) == reason;
      }
      if k :| (0 <= k < MaxPolls && IsFailed(polls(k)) && ReasonOf(polls(k)) == reason &&
               forall j :: 0 <= j < k ==> !IsTerminal(polls(j))) {
        FirstTerminalAt(polls, k);
      }
    }
  }

  /** The client times out exactly when both requests succeed and none of the MaxPolls polls is terminal. */
  lemma TimedOutIff(upload: HttpReply, submit: HttpReply, polls: nat -> PollReply)
    ensures Outcome(upload, submit, polls) == Err(TimedOut) <==>
      upload.status == HttpOk && submit.status == HttpOk &&
      forall j :: 0 <= j < MaxPolls ==> !IsTerminal(polls(j))
  {
  }

  /** "processing" on polls 1 to 59 and "completed" on poll 60 yields the transcript, after 60 polls. */
  lemma CompletedOnLastPoll(polls: nat -> PollReply, t: string)
    requires forall j :: 0 <= j < MaxPolls - 1 ==> polls(j).status == Some("processing")
    requires polls(MaxPolls - 1) == PollReply(Some("completed"), Some(t), None)
    ensures Outcome(HttpReply(HttpOk, ""), HttpReply(HttpOk, ""), polls) == Ok(t)
    ensures PollsMade(HttpReply(HttpOk, ""), HttpReply(HttpOk, ""), polls) == MaxPolls
  {
  }

  /** "processing" on all 60 polls yields the timeout error. */
  lemma ProcessingThroughoutTimesOut(polls: nat -> PollReply)
    requires forall j :: 0 <= j < MaxPolls ==> polls(j).status == Some("processing")
    ensures Outcome(HttpReply(HttpOk, ""), HttpReply(HttpOk, ""), polls) == Err(TimedOut)
    ensures Message(TimedOut) == TimeoutMessage
  {
  }

  /** A first poll {status: "failed", error: "bad audio"} yields the failure carrying "bad audio". */
  lemma FailureCarriesReason(polls: nat -> PollReply)
    requires polls(0) == PollReply(Some("failed"), None, Some("bad audio"))
    ensures Outcome(HttpReply(HttpOk, ""), HttpReply(HttpOk, ""), polls) == Err(JobFailed("bad audio"))
    ensures Message(JobFailed("bad audio")) == "Transcription failed: bad audio"
  {
  }
}
