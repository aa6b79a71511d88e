/** The Express router of server/_core/audioRoutes.ts: the same session
    operations over a process-local table of sessions that holds only the
    transcript and the two counters. Absent request fields arrive here as
    the empty string, which JavaScript treats as false just like a missing
    field. */
module ExpressRoutes {
  import opened Options
  import opened Text
  import opened Providers
  import opened Prompts
  import opened Sessions

  datatype ChunkReply = ChunkReply(chunkNumber: string, transcription: string, completeText: string,
                                   deepgramCalls: nat, accumulatedSize: nat)
  datatype StopReply = StopReply(completeText: string, totalChunks: nat, deepgramCalls: nat, totalSize: nat)
  datatype SummaryReply = SummaryReply(summary: string, summaryType: string, originalText: string)

  /** A request names a session when its id is non-empty and in the table. */
  predicate Known(store: Store, id: string) {
    id != "" && id in store
  }

  /** `/api/start-session`: an empty record under a fresh id. */
  function StartSession(store: Store, id: string): (s: Step<string>)
    requires id !in store
    ensures s.result == Ok(id) && s.calls == []
    ensures s.store.Keys == store.Keys + {id}
    ensures forall k | k in store :: s.store[k] == store[k]
    ensures s.store[id] == NewSession
    ensures Grows(store, s.store)
  {
    GrowsByInsert(store, id, NewSession);
    Step(store[id := NewSession], Ok(id), [])
  }

  /** `/api/upload-chunk`. `audio` is the byte length of the uploaded file,
      `None` when the request carried none. A missing chunk number is
      reported as "0". */
  function UploadChunk(store: Store, id: string, chunkNumber: string, audio: Option<nat>,
                       apiKey: string, reply: ListenReply): (s: Step<ChunkReply>)
    ensures !Known(store, id) ==> s == Step(store, Fail(InvalidSession), [])
    ensures Known(store, id) && audio.None? ==> s == Step(store, Fail(NoAudioFile), [])
    ensures Known(store, id) && audio.Some? ==>
      && s.result.Ok? && id in s.store
      && s.result.value.chunkNumber == (if chunkNumber == "" then "0" else chunkNumber)
      && s.result.value.transcription == Transcribe(apiKey, audio.value, reply).GetOr("")
      && s.calls == (if CallsDeepgram(apiKey, audio.value) then [SpeechToText(audio.value)] else [])
      && s.result.value.completeText == s.store[id].transcript
      && s.result.value.deepgramCalls == s.store[id].deepgramCalls
      && s.result.value.accumulatedSize == s.store[id].accumulatedSize
    ensures s.result.Ok? && s.result.value.transcription == "" ==> s.store == store
    ensures s.result.Ok? && s.result.value.transcription != "" ==>
      && Trimmed(s.result.value.transcription)
      && s.store == store[id := RecordChunk(store[id], s.result.value.transcription, audio.value)]
    ensures Grows(store, s.store)
  {
    GrowsReflexive(store);
    var number := if chunkNumber == "" then "0" else chunkNumber;
    if !Known(store, id) then Step(store, Fail(InvalidSession), [])
    else if audio.None? then Step(store, Fail(NoAudioFile), [])
    else
      var byteLength := audio.value;
      var session := store[id];
      var calls := if CallsDeepgram(apiKey, byteLength) then [SpeechToText(byteLength)] else [];
      match Transcribe(apiKey, byteLength, reply)
      case Some(fragment) =>
        var updated := RecordChunk(session, fragment, byteLength);
        GrowsByUpdate(store, id, updated);
        Step(store[id := updated],
             Ok(ChunkReply(number, fragment, updated.transcript, updated.deepgramCalls, updated.accumulatedSize)),
             calls)
      case None =>
        Step(store,
             Ok(ChunkReply(number, "", session.transcript, session.deepgramCalls, session.accumulatedSize)),
             calls)
  }

  /** `/api/stop-session`: a read of the session; `total_chunks` is always 0. */
  function StopSession(store: Store, id: string): (s: Step<StopReply>)
    ensures s.store == store && s.calls == []
    ensures s.result.Ok? <==> Known(store, id)
    ensures s.result.Fail? ==> s.result.error == InvalidSession
    ensures s.result.Ok? ==> s.result.value.totalChunks == 0
    ensures s.result.Ok? ==>
      var session := store[id];
      && s.result.value.completeText == session.transcript
      && s.result.value.deepgramCalls == session.deepgramCalls
      && s.result.value.totalSize == session.accumulatedSize
  {
    if !Known(store, id) then Step(store, Fail(InvalidSession), [])
    else
      var session := store[id];
      Step(store, Ok(StopReply(session.transcript, 0, session.deepgramCalls, session.accumulatedSize)), [])
  }

  /** JavaScript's `given || fallback` on a request field: an absent or
      empty field takes the handler's default. */
  function OrDefault(given: string, fallback: string): string {
    if given == "" then fallback else given
  }

  /** `/api/generate-summary`: refuse a transcript shorter than 50 trimmed
      characters before calling the LLM. The summary is answered, never
      stored: the table is the same afterwards whatever happens. */
  function GenerateSummary(store: Store, id: string, summaryType: string, language: string,
                           completion: Option<string>): (s: Step<SummaryReply>)
    ensures s.store == store
    ensures !Known(store, id) ==> s.result == Fail(InvalidSession) && s.calls == []
    ensures Known(store, id) && TrimmedLength(store[id].transcript) < SummaryMinLength ==>
      s.result == Fail(SummaryTranscriptTooShort) && s.calls == []
    ensures Known(store, id) && TrimmedLength(store[id].transcript) >= SummaryMinLength ==>
      s.calls == [Completion(SummaryPrompt(Express, OrDefault(summaryType, "medium"), store[id].transcript,
                                           OrDefault(language, "en")))]
    ensures s.result.Ok? ==>
      && Known(store, id)
      && completion.Some? && completion.value == s.result.value.summary && s.result.value.summary != ""
      && s.result.value.summaryType == OrDefault(summaryType, "medium")
      && s.result.value.originalText == store[id].transcript
    ensures s.result.Ok? <==>
      Known(store, id) && TrimmedLength(store[id].transcript) >= SummaryMinLength
      && CompletionText(completion).Some?
    ensures s.result == Fail(SummaryFailed) <==>
      Known(store, id) && TrimmedLength(store[id].transcript) >= SummaryMinLength
      && CompletionText(completion).None?
  {
    var summaryType := OrDefault(summaryType, "medium");
    var language := OrDefault(language, "en");
    if !Known(store, id) then Step(store, Fail(InvalidSession), [])
    else
      var transcript := store[id].transcript;
      if transcript == "" || TrimmedLength(transcript) < SummaryMinLength then
        Step(store, Fail(SummaryTranscriptTooShort), [])
      else
        var prompt := SummaryPrompt(Express, summaryType, transcript, language);
        match CompletionText(completion)
        case None => Step(store, Fail(SummaryFailed), [Completion(prompt)])
        case Some(summary) => Step(store, Ok(SummaryReply(summary, summaryType, transcript)), [Completion(prompt)])
  }

  /** An absent summary type or language behaves exactly as the default
      named in full: `"medium"` and `"en"`. */
  lemma SummaryDefaultsApply(store: Store, id: string, summaryType: string, language: string,
                             completion: Option<string>)
    ensures GenerateSummary(store, id, "", language, completion)
         == GenerateSummary(store, id, "medium", language, completion)
    ensures GenerateSummary(store, id, summaryType, "", completion)
         == GenerateSummary(store, id, summaryType, "en", completion)
  {
  }

  /** An absent target language behaves exactly as `"ja"`. */
  lemma TranslateDefaultApplies(text: string, previous: string, completion: Option<string>)
    ensures Translate(text, "", previous, completion) == Translate(text, "ja", previous, completion)
  {
  }

  /** `/api/translate`: translate the text of the request itself, with the
      request's previous translation as context. No session is involved.
      A missing target language means Japanese. */
  function Translate(text: string, target: string, previous: string,
                     completion: Option<string>): (e: Exchange<string>)
    ensures text == "" ==> e == Exchange(Fail(MissingText), [])
    ensures text != "" ==>
      e.calls == [Completion(TranslationPrompt(text, OrDefault(target, "ja"),
                                               if previous == "" then None else Some(previous)))]
    ensures e.result.Ok? ==> text != "" && completion.Some? && completion.value == e.result.value && e.result.value != ""
    ensures e.result.Ok? <==> text != "" && CompletionText(completion).Some?
    ensures e.result == Fail(TranslationFailed) <==> text != "" && CompletionText(completion).None?
  {
    var target := OrDefault(target, "ja");
    var previous := if previous == "" then None else Some(previous);
    if text == "" || target == "" then Exchange(Fail(MissingText), [])
    else
      var prompt := TranslationPrompt(text, target, previous);
      match CompletionText(completion)
      case None => Exchange(Fail(TranslationFailed), [Completion(prompt)])
      case Some(translation) => Exchange(Ok(translation), [Completion(prompt)])
  }
}
