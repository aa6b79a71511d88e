/** The tRPC `audioRouter` (server/routers/audio.ts): the session
    operations over the database-backed session store. The store functions
    `createAudioSession`, `getAudioSessionBySessionId` and
    `updateAudioSession` are map insertion, lookup and field update. */
module RpcRouter {
  import opened Options
  import opened Text
  import opened Providers
  import opened Prompts
  import opened Sessions

  datatype ChunkReply = ChunkReply(chunkNumber: string, transcription: string, completeText: string)
  datatype StopReply = StopReply(completeText: string, totalChunks: nat, deepgramCalls: nat, totalSize: nat)
  datatype SummaryReply = SummaryReply(summary: string, summaryType: string, originalText: string)
  datatype TranslateReply = TranslateReply(translation: string, targetLanguage: string)

  /** `startSession`: an empty record under a fresh id. */
  function StartSession(store: Store, id: string): (s: Step<string>)
    requires id !in store
    ensures s.result == Ok(id) && s.calls == []
    ensures s.store.Keys == store.Keys + {id}
    ensures forall k | k in store :: s.store[k] == store[k]
    ensures s.store[id] == NewSession
    ensures Grows(store, s.store)
  {
    GrowsByInsert(store, id, NewSession);
    Step(store[id := NewSession], Ok(id), [])
  }

  /** `uploadChunk`: transcribe the decoded chunk of `byteLength` bytes and,
      when that yields text, append it to the session. A failed
      transcription is not an error: it answers an empty fragment and leaves
      the store as it was. */
  function UploadChunk(store: Store, id: string, chunkNumber: string, byteLength: nat,
                       apiKey: string, reply: ListenReply): (s: Step<ChunkReply>)
    ensures id !in store ==> s == Step(store, Fail(InvalidSession), [])
    ensures id in store ==>
      && s.result.Ok? && s.result.value.chunkNumber == chunkNumber
      && s.result.value.transcription == Transcribe(apiKey, byteLength, reply).GetOr("")
      && s.calls == (if CallsDeepgram(apiKey, byteLength) then [SpeechToText(byteLength)] else [])
    ensures s.result.Ok? && s.result.value.transcription == "" ==>
      s.store == store && s.result.value.completeText == store[id].transcript
    ensures s.result.Ok? && s.result.value.transcription != "" ==>
      && Trimmed(s.result.value.transcription)
      && s.store == store[id := RecordChunk(store[id], s.result.value.transcription, byteLength)]
      && s.result.value.completeText == s.store[id].transcript
    ensures Grows(store, s.store)
  {
    GrowsReflexive(store);
    if id !in store then Step(store, Fail(InvalidSession), [])
    else
      var session := store[id];
      var calls := if CallsDeepgram(apiKey, byteLength) then [SpeechToText(byteLength)] else [];
      match Transcribe(apiKey, byteLength, reply)
      case Some(fragment) =>
        var updated := RecordChunk(session, fragment, byteLength);
        GrowsByUpdate(store, id, updated);
        Step(store[id := updated], Ok(ChunkReply(chunkNumber, fragment, updated.transcript)), calls)
      case None =>
        Step(store, Ok(ChunkReply(chunkNumber, "", session.transcript)), calls)
  }

  /** `stopSession`: a read of the session; `totalChunks` is always 0. */
  function StopSession(store: Store, id: string): (s: Step<StopReply>)
    ensures s.store == store && s.calls == []
    ensures s.result.Ok? <==> id in store
    ensures s.result.Fail? ==> s.result.error == InvalidSession
    ensures s.result.Ok? ==> s.result.value.totalChunks == 0
    ensures s.result.Ok? ==>
      var session := store[id];
      && s.result.value.completeText == session.transcript
      && s.result.value.deepgramCalls == session.deepgramCalls
      && s.result.value.totalSize == session.accumulatedSize
  {
    if id !in store then Step(store, Fail(InvalidSession), [])
    else
      var session := store[id];
      Step(store, Ok(StopReply(session.transcript, 0, session.deepgramCalls, session.accumulatedSize)), [])
  }

  /** `generateSummary`: refuse a transcript shorter than 50 trimmed
      characters before calling the LLM; store the summary, its type and its
      language only when the LLM answered. */
  function GenerateSummary(store: Store, id: string, summaryType: string, language: string,
                           completion: Option<string>): (s: Step<SummaryReply>)
    ensures s.result.Fail? ==> s.store == store
    ensures id !in store ==> s.result == Fail(InvalidSession) && s.calls == []
    ensures id in store && TrimmedLength(store[id].transcript) < SummaryMinLength ==>
      s.result == Fail(SummaryTranscriptTooShort) && s.calls == []
    ensures id in store && TrimmedLength(store[id].transcript) >= SummaryMinLength ==>
      s.calls == [Completion(SummaryPrompt(Rpc, summaryType, store[id].transcript, language))]
    ensures s.result.Ok? ==>
      && id in store
      && completion.Some? && completion.value == s.result.value.summary && s.result.value.summary != ""
      && s.result.value.summaryType == summaryType
      && s.result.value.originalText == store[id].transcript
      && s.store == store[id := store[id].(summary := Some(s.result.value.summary),
                                           summaryType := Some(summaryType),
                                           summaryLanguage := Some(language))]
    ensures s.result.Ok? <==>
      id in store && TrimmedLength(store[id].transcript) >= SummaryMinLength
      && CompletionText(completion).Some?
    ensures s.result == Fail(SummaryFailed) <==>
      id in store && TrimmedLength(store[id].transcript) >= SummaryMinLength
      && CompletionText(completion).None?
    ensures Grows(store, s.store)
  {
    GrowsReflexive(store);
    if id !in store then Step(store, Fail(InvalidSession), [])
    else
      var session := store[id];
      var transcript := session.transcript;
      if transcript == "" || TrimmedLength(transcript) < SummaryMinLength then
        Step(store, Fail(SummaryTranscriptTooShort), [])
      else
        var prompt := SummaryPrompt(Rpc, summaryType, transcript, language);
        match CompletionText(completion)
        case None => Step(store, Fail(SummaryFailed), [Completion(prompt)])
        case Some(summary) =>
          var updated := session.(summary := Some(summary), summaryType := Some(summaryType),
                                  summaryLanguage := Some(language));
          GrowsByUpdate(store, id, updated);
          Step(store[id := updated], Ok(SummaryReply(summary, summaryType, transcript)), [Completion(prompt)])
  }

  /** `translate`: refuse a transcript shorter than 10 trimmed characters
      before calling the LLM; translate the whole transcript with the stored
      translation as context, and store the new translation and its language
      only when the LLM answered. */
  function Translate(store: Store, id: string, target: string, completion: Option<string>): (s: Step<TranslateReply>)
    ensures s.result.Fail? ==> s.store == store
    ensures id !in store ==> s.result == Fail(InvalidSession) && s.calls == []
    ensures id in store && TrimmedLength(store[id].transcript) < TranslationMinLength ==>
      s.result == Fail(TranslationTranscriptTooShort) && s.calls == []
    ensures id in store && TrimmedLength(store[id].transcript) >= TranslationMinLength ==>
      s.calls == [Completion(TranslationPrompt(store[id].transcript, target, store[id].translation))]
    ensures s.result.Ok? ==>
      && id in store
      && completion.Some? && completion.value == s.result.value.translation && s.result.value.translation != ""
      && s.result.value.targetLanguage == target
      && s.store == store[id := store[id].(translation := Some(s.result.value.translation),
                                           translationLanguage := Some(target))]
    ensures s.result.Ok? <==>
      id in store && TrimmedLength(store[id].transcript) >= TranslationMinLength
      && CompletionText(completion).Some?
    ensures s.result == Fail(TranslationFailed) <==>
      id in store && TrimmedLength(store[id].transcript) >= TranslationMinLength
      && CompletionText(completion).None?
    ensures Grows(store, s.store)
  {
    GrowsReflexive(store);
    if id !in store then Step(store, Fail(InvalidSession), [])
    else
      var session := store[id];
      var transcript := session.transcript;
      if transcript == "" || TrimmedLength(transcript) < TranslationMinLength then
        Step(store, Fail(TranslationTranscriptTooShort), [])
      else
        var prompt := TranslationPrompt(transcript, target, session.translation);
        match CompletionText(completion)
        case None => Step(store, Fail(TranslationFailed), [Completion(prompt)])
        case Some(translation) =>
          var updated := session.(translation := Some(translation), translationLanguage := Some(target));
          GrowsByUpdate(store, id, updated);
          Step(store[id := updated], Ok(TranslateReply(translation, target)), [Completion(prompt)])
  }

  /** A translation of a known, long enough session with a non-empty
      answer succeeds, and it becomes the context of the next one: the next
      request on the session uses the continuity prompt, ending with the
      translation just stored. */
  lemma TranslateCarriesContext(store: Store, id: string, target: string, completion: Option<string>,
                                nextTarget: string, nextCompletion: Option<string>)
    requires id in store && TrimmedLength(store[id].transcript) >= TranslationMinLength
    requires CompletionText(completion).Some?
    ensures var first := Translate(store, id, target, completion);
      var next := Translate(first.store, id, nextTarget, nextCompletion);
      && first.result.Ok?
      && |next.calls| == 1 && next.calls[0].Completion?
      && StartsWith(next.calls[0].prompt, ContinuityOpening)
      && EndsWith(next.calls[0].prompt, ContextLabel + first.result.value.translation)
  {
    var first := Translate(store, id, target, completion);
    var session := first.store[id];
    assert session.transcript == store[id].transcript;
  }

  /** `getSession`: the stored record. */
  function GetSession(store: Store, id: string): (r: Result<Session, Error>)
    ensures r.Ok? <==> id in store
    ensures r.Ok? ==> r.value == store[id]
    ensures r.Fail? ==> r.error == SessionNotFound
  {
    if id in store then Ok(store[id]) else Fail(SessionNotFound)
  }
}
