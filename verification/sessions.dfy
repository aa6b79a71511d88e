/** The session record both routers keep per recording, the store that maps
    session ids to records, and what every router operation produces: the
    new store, an answer or an error, and the provider calls it made. The
    Express router keeps the store in a process-local object and the tRPC
    router in a database table; both are a finite map here. */
module Sessions {
  import opened Options
  import opened Text

  /** A session record. The Express router only ever sets the first three
      fields; the optional ones are set by the tRPC router's summary and
      translation operations. A database `null` in `transcript`,
      `deepgramCalls` or `accumulatedSize` reads as `""` or `0` everywhere
      (`|| ""`, `|| 0`), so those fields store the read value directly. */
  datatype Session = Session(
    transcript: string,
    deepgramCalls: nat,
    accumulatedSize: nat,
    summary: Option<string>,
    summaryType: Option<string>,
    summaryLanguage: Option<string>,
    translation: Option<string>,
    translationLanguage: Option<string>)

  type Store = map<string, Session>

  /** The record a new session starts with. */
  const NewSession := Session("", 0, 0, None, None, None, None, None)

  /** The failures the routers report. */
  datatype Error =
    | InvalidSession
    | NoAudioFile
    | MissingText
    | SummaryTranscriptTooShort
    | SummaryFailed
    | TranslationTranscriptTooShort
    | TranslationFailed
    | SessionNotFound

  /** The message each failure carries. */
  function Message(e: Error): string {
    match e
    case InvalidSession => "Invalid session ID"
    case NoAudioFile => "No audio file provided"
    case MissingText => "Missing text or target_language"
    case SummaryTranscriptTooShort => "Transcript too short for summary generation"
    case SummaryFailed => "Failed to generate summary"
    case TranslationTranscriptTooShort => "Transcript too short for translation"
    case TranslationFailed => "Failed to translate text"
    case SessionNotFound => "Session not found"
  }

  /** Each failure is told apart by its message. */
  lemma MessagesDistinct(e: Error, f: Error)
    ensures Message(e) == Message(f) <==> e == f
  {
  }

  /** A request sent to a provider: Deepgram with an audio buffer of the
      given length, or the LLM with a prompt. */
  datatype ProviderCall = SpeechToText(byteLength: nat) | Completion(prompt: string)

  /** The outcome of one operation on the store. */
  datatype Step<T> = Step(store: Store, result: Result<T, Error>, calls: seq<ProviderCall>)

  /** The outcome of an operation that does not touch the store. */
  datatype Exchange<T> = Exchange(result: Result<T, Error>, calls: seq<ProviderCall>)

  /** The trimmed transcript must be this long (in UTF-16 code units) before
      a summary or a translation is requested. */
  const SummaryMinLength: nat := 50
  const TranslationMinLength: nat := 10

  /** `transcript.trim().length`. */
  function TrimmedLength(transcript: string): (n: nat)
    ensures n == 0 <==> AllSpace(transcript)
    ensures n <= Utf16Length(transcript)
  {
    TrimEmpty(transcript);
    TrimNoLonger(transcript);
    Utf16Length(Trim(transcript))
  }

  /** The record after a chunk transcribed to `fragment`: the fragment is
      appended, one more Deepgram call is counted, and the chunk's bytes are
      added to the accumulated size. Nothing else changes. */
  function RecordChunk(session: Session, fragment: string, byteLength: nat): (r: Session)
    ensures session.transcript <= r.transcript
    ensures EndsWith(r.transcript, fragment)
    ensures r.deepgramCalls == session.deepgramCalls + 1
    ensures r.accumulatedSize == session.accumulatedSize + byteLength
    ensures r.(transcript := session.transcript, deepgramCalls := session.deepgramCalls,
               accumulatedSize := session.accumulatedSize) == session
  {
    session.(
      transcript := AppendText(session.transcript, fragment),
      deepgramCalls := session.deepgramCalls + 1,
      accumulatedSize := session.accumulatedSize + byteLength)
  }

  /** `after` keeps every session of `before`, and in each of them the
      transcript only grew at the end and the counters did not decrease. */
  predicate Grows(before: Store, after: Store) {
    forall id | id in before ::
      && id in after
      && before[id].transcript <= after[id].transcript
      && before[id].deepgramCalls <= after[id].deepgramCalls
      && before[id].accumulatedSize <= after[id].accumulatedSize
  }

  lemma GrowsTransitive(a: Store, b: Store, c: Store)
    requires Grows(a, b) && Grows(b, c)
    ensures Grows(a, c)
  {
    forall id | id in a
      ensures a[id].transcript <= c[id].transcript
    {
      PrefixTransitive(a[id].transcript, b[id].transcript, c[id].transcript);
    }
  }

  lemma PrefixTransitive(x: string, y: string, z: string)
    requires x <= y && y <= z
    ensures x <= z
  {
    assert z[..|x|] == z[..|y|][..|x|];
  }

  /** Replacing one session by a record that grew keeps the store growing. */
  lemma GrowsByUpdate(store: Store, id: string, updated: Session)
    requires id in store
    requires store[id].transcript <= updated.transcript
    requires store[id].deepgramCalls <= updated.deepgramCalls
    requires store[id].accumulatedSize <= updated.accumulatedSize
    ensures Grows(store, store[id := updated])
  {
  }

  lemma GrowsReflexive(store: Store)
    ensures Grows(store, store)
  {
    forall id | id in store
      ensures store[id].transcript <= store[id].transcript
    {
      assert store[id].transcript[..|store[id].transcript|] == store[id].transcript;
    }
  }

  lemma GrowsByInsert(store: Store, id: string, created: Session)
    requires id !in store
    ensures Grows(store, store[id := created])
  {
    GrowsReflexive(store);
  }
}
