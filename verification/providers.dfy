/** The two provider adapters shared by both routers (each router carries an
    identical copy): the speech-to-text gate around the Deepgram `listen`
    call, and the extraction of text from an LLM chat completion. The
    network calls themselves are not modelled; their answers arrive as
    parameters. */
module Providers {
  import opened Options
  import opened Text

  /** Audio shorter than this many bytes is rejected as probably silent. */
  const MinAudioBytes: nat := 1000

  /** One entry of `alternatives`; `transcript` is absent or `null` as `None`. */
  datatype Alternative = Alternative(transcript: Option<string>)

  /** One entry of `results.channels`; a missing `alternatives` is `None`. */
  datatype Channel = Channel(alternatives: Option<seq<Alternative>>)

  /** The parsed JSON body of a `listen` response; `None` when
      `results` or `results.channels` is missing. `Unparsable` stands for a
      body on which `response.json()` throws. */
  datatype ListenBody = Unparsable | Listen(channels: Option<seq<Channel>>)

  /** What `fetch` produced: it threw (`FetchFailed`), or an HTTP status with
      a body. */
  datatype ListenReply = FetchFailed | Http(status: int, body: ListenBody)

  /** Whether the adapter contacts Deepgram at all: a configured API key and
      at least `MinAudioBytes` of audio. */
  predicate CallsDeepgram(apiKey: string, byteLength: nat) {
    apiKey != "" && byteLength >= MinAudioBytes
  }

  /** Whether `channels[0].alternatives[0].transcript` is present. */
  predicate HasFirstTranscript(channels: Option<seq<Channel>>) {
    && channels.Some? && |channels.value| > 0
    && channels.value[0].alternatives.Some? && |channels.value[0].alternatives.value| > 0
    && channels.value[0].alternatives.value[0].transcript.Some?
  }

  /** `channels[0].alternatives[0].transcript`, with every missing level
      read as empty (`|| []`, `|| ""`). */
  function FirstTranscript(channels: Option<seq<Channel>>): (r: string)
    ensures HasFirstTranscript(channels) ==> Some(r) == channels.value[0].alternatives.value[0].transcript
    ensures !HasFirstTranscript(channels) ==> r == ""
  {
    var chs := channels.GetOr([]);
    if |chs| == 0 then ""
    else
      var alts := chs[0].alternatives.GetOr([]);
      if |alts| == 0 then "" else alts[0].transcript.GetOr("")
  }

  /** `transcribeWithDeepgram`: the trimmed first transcript of a successful
      response, or `None`. */
  function Transcribe(apiKey: string, byteLength: nat, reply: ListenReply): (r: Option<string>)
    ensures !CallsDeepgram(apiKey, byteLength) ==> r == None
    ensures r.Some? ==> r.value != "" && Trimmed(r.value)
    ensures r.Some? ==> reply.Http? && reply.status == 200 && reply.body.Listen?
  {
    if apiKey == "" then None
    else if byteLength < MinAudioBytes then None
    else match reply
      case FetchFailed => None
      case Http(status, body) =>
        if status != 200 then None
        else match body
          case Unparsable => None
          case Listen(channels) =>
            var text := Trim(FirstTranscript(channels));
            if text == "" then None else Some(text)
  }

  /** A successful transcription is exactly the first alternative with the
      surrounding whitespace removed, and any first alternative with visible
      text is accepted once the gate is passed. */
  lemma TranscribeReturnsFirstAlternative(apiKey: string, byteLength: nat, channels: Option<seq<Channel>>)
    requires CallsDeepgram(apiKey, byteLength)
    ensures var r := Transcribe(apiKey, byteLength, Http(200, Listen(channels)));
      && (r.None? <==> AllSpace(FirstTranscript(channels)))
      && (r.Some? ==> exists a, b :: AllSpace(a) && AllSpace(b) && FirstTranscript(channels) == a + r.value + b)
  {
    var t := FirstTranscript(channels);
    TrimEmpty(t);
    var a, b := TrimDecomposes(t);
  }

  /** A response with no channels, no alternatives, or a blank first
      alternative transcribes to nothing. */
  lemma BlankResponseYieldsNone(apiKey: string, byteLength: nat, channels: Option<seq<Channel>>)
    requires channels == None || channels == Some([])
      || (|channels.value| > 0 && channels.value[0].alternatives in {None, Some([])})
      || (|channels.value| > 0 && channels.value[0].alternatives.Some?
          && |channels.value[0].alternatives.value| > 0
          && AllSpace(channels.value[0].alternatives.value[0].transcript.GetOr("")))
    ensures Transcribe(apiKey, byteLength, Http(200, Listen(channels))) == None
  {
    TrimEmpty(FirstTranscript(channels));
  }

  /** `generateSummaryWithLLM` / `translateWithLLM` answer processing:
      `completion` is the first choice's message content when it is a
      string (`None` when the call threw, there is no choice, or the content
      is not a string). An empty string is falsy and counts as no answer. */
  function CompletionText(completion: Option<string>): (r: Option<string>)
    ensures r.Some? ==> r.value != "" && completion == r
    ensures r.None? ==> completion in {None, Some("")}
  {
    match completion
    case Some(text) => if text == "" then None else Some(text)
    case None => None
  }
}
