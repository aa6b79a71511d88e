# Live transcription sessions: a Dafny model

The server of this live-speech transcriber keeps one *session* per
recording. The browser uploads the recording in chunks. Each chunk goes
through Deepgram's speech-to-text. The resulting text fragment is appended
to the session's transcript. On request, an LLM summarises or translates
the transcript.

The same logic exists twice:

- the Express router in `server/_core/audioRoutes.ts`, which keeps sessions
  in a process-local table;
- the tRPC `audioRouter` in `server/routers/audio.ts`, which keeps them in
  the database.

This project models both routers as pure step functions over an immutable
store `map<string, Session>`:

| file | module | what it holds |
|---|---|---|
| `options.dfy` | `Options` | `Option` and `Result` |
| `text.dfy` | `Text` | JavaScript's `trim` and UTF-16 `length`; appending a fragment with a space; space-joining |
| `providers.dfy` | `Providers` | the Deepgram gate and answer extraction in `transcribeWithDeepgram`; reading an LLM completion |
| `prompts.dfy` | `Prompts` | `getSummaryPrompt` for both routers; the prompt choice in `translateWithLLM` |
| `sessions.dfy` | `Sessions` | the session record, the store, the error messages, the provider-call trace, the chunk update |
| `express_routes.dfy` | `ExpressRoutes` | the five Express handlers |
| `rpc_router.dfy` | `RpcRouter` | the tRPC mutations and `getSession` |
| `uploads.dfy` | `Uploads` | sequences of chunk uploads and what they do to a session |
| `agreement.dfy` | `Agreement` | where the two routers behave the same |

Every operation on the store returns a `Step` of three things:

- the new store;
- a `Result` carrying either the reply or the error;
- the sequence of provider calls the handler makes.

Two operations return less. The Express translate handler touches no
session, so it returns an `Exchange`: the `Result` and the calls, with no
store. The tRPC `getSession` query makes no call and changes nothing, so it
returns the bare `Result`.

Those calls are either a Deepgram request with a byte length or an LLM
completion with its prompt. This makes "the length check comes before any
LLM call" and "a short chunk never reaches Deepgram" statable.

The answers from the providers are parameters:

- Deepgram's answer is a `ListenReply` datatype;
- the LLM's answer is an `Option<string>`.

The model follows the code:

- `accumulatedSize` grows only when a chunk produced text. Both routers
  update the size only on the success branch
  (`server/_core/audioRoutes.ts:251`, `server/routers/audio.ts:222`).
- The Express summary handler stores nothing.
- The Express translate handler does not look at any session. It
  translates the request's own text, with the request's own previous
  translation as context.
- The two copies of the summary prompt builder differ:
  - only the Express copy has a `detailed` template;
  - the Russian and Indonesian instructions end in `।` in the Express copy
    and in `。` in the tRPC copy.

## Model

| member | source | states |
|---|---|---|
| Text.Trim | server/_core/audioRoutes.ts:56-59 | `trim` leaves no JavaScript whitespace or line terminator at either end, never lengthens its input, and returns an already trimmed string unchanged |
| Text.TrimDecomposes | server/_core/audioRoutes.ts:59 | every string is leading whitespace, then its trimmed form, then trailing whitespace, so `trim` only removes characters at the ends |
| Text.TrimUnique | server/_core/audioRoutes.ts:59 | whitespace + a trimmed core + whitespace trims to exactly that core |
| Text.TrimNoLonger | server/_core/audioRoutes.ts:329 | trimming never increases the UTF-16 length |
| Text.TrimEmpty | server/_core/audioRoutes.ts:57 | a transcript fails the `transcript.trim()` truthiness test exactly when it is all whitespace |
| Text.TrimIdempotent | server/routers/audio.ts:54-56 | trimming a trimmed transcript changes nothing |
| Text.Utf16Length | server/_core/audioRoutes.ts:329 | `.length` counts UTF-16 code units: at least one and at most two per character, and exactly one per character iff no character lies outside the Basic Multilingual Plane |
| Text.Utf16LengthAppend | server/_core/audioRoutes.ts:329 | the length of a concatenation is the sum of the lengths |
| Text.AppendText | server/_core/audioRoutes.ts:243-246 | the old transcript is a prefix of the new one, the new one ends with the fragment, and exactly one separator is added when the old transcript was non-empty |
| Text.AppendTextJoins | server/routers/audio.ts:214-217 | appending non-empty fragments one by one builds their space-separated join |
| Text.JoinNonEmpty | server/routers/audio.ts:214-217 | a join of non-empty fragments is empty only when there are no fragments |
| Text.TrimAppendText | server/_core/audioRoutes.ts:243-246 | appending a trimmed fragment to a transcript with visible text only adds text after its trimmed form |
| Text.AppendTextKeepsTrimmedPrefix | server/_core/audioRoutes.ts:329 | appending never shortens the trimmed transcript, in characters or in UTF-16 units |
| Providers.FirstTranscript | server/_core/audioRoutes.ts:52-56 | the text read is the first alternative of the first channel whenever that transcript is present, and empty whenever any level on the way is missing |
| Providers.Transcribe | server/_core/audioRoutes.ts:19-72 | no key or fewer than 1000 bytes yields `None`; any text returned is non-empty and trimmed, and comes only from an HTTP 200 answer with a parsable body |
| Providers.TranscribeReturnsFirstAlternative | server/_core/audioRoutes.ts:52-63 | past the gate, the result is `None` iff the first alternative is blank; otherwise it is that alternative with only surrounding whitespace removed |
| Providers.BlankResponseYieldsNone | server/routers/audio.ts:49-60 | no channels, no alternatives, or a whitespace-only first transcript gives `None` |
| Providers.CompletionText | server/_core/audioRoutes.ts:121-128 | an answer is exactly a non-empty string content; a missing or empty content is no answer |
| Prompts.SummaryPrompt | server/_core/audioRoutes.ts:74-103 | a summary prompt starts with the selected template's opening, contains the language instruction, and ends with `"Transcript: "` followed by the transcript |
| Prompts.EmptyChoicesFallBack | server/routers/audio.ts:89-97 | an empty summary type builds the same prompt as `"medium"` and an empty language the same as `"en"`, in both copies; zod's `.default` at `server/routers/audio.ts:262-263` replaces only a missing field, so an empty one reaches these lookups |
| Prompts.SelectTemplate | server/routers/audio.ts:91-97 | a type in the router's table selects its own template (`"short"` the short one); the medium template is used exactly for `"medium"` and for unknown types; `"detailed"` selects the detailed template in Express and the medium one in tRPC |
| Prompts.LanguageInstruction | server/_core/audioRoutes.ts:79-92 | a code in the table gets its own entry; "Summarize in English." is used exactly for language codes missing from the table |
| Prompts.PromptsCarryInstruction | server/_core/audioRoutes.ts:79-102 | for every code in the instruction table, the summary prompt built for it contains that code's instruction, whatever the summary type |
| Prompts.LanguageName | server/_core/audioRoutes.ts:155 | a code in the table gets its own name; the target name is "Japanese" exactly for `ja` and for unknown codes |
| Prompts.PromptsCarryLanguageName | server/_core/audioRoutes.ts:155-162 | for every code in `languageNames`, the translation prompt built for it names that language, with or without a previous translation |
| Prompts.TranslationPrompt | server/_core/audioRoutes.ts:155-162 | the continuity prompt is chosen iff there is a non-empty previous translation; both prompts contain the language name and the text; the continuity prompt ends with the previous translation and the direct one ends with the text |
| Prompts.SummaryPromptRoutersAgree | server/routers/audio.ts:71-98 | apart from `"detailed"` and the Russian and Indonesian instructions, both copies build the same summary prompt |
| Sessions.TrimmedLength | server/_core/audioRoutes.ts:329 | `transcript.trim().length` is 0 exactly for an all-whitespace transcript, and never exceeds the untrimmed length |
| Sessions.MessagesDistinct | server/routers/audio.ts:204-351 | the eight failure messages are pairwise different, so a client can tell every failure apart by its message; six come from the tRPC router ("Invalid session ID", "Transcript too short for summary generation", "Session not found", …), and "No audio file provided" and "Missing text or target_language" only from the Express router (`server/_core/audioRoutes.ts:233`, `:374`) |
| Sessions.RecordChunk | server/routers/audio.ts:213-223 | a chunk that produced text extends the transcript (old is a prefix, the fragment ends it), adds one Deepgram call and the chunk's bytes, and changes no other field |
| ExpressRoutes.StartSession | server/_core/audioRoutes.ts:190-214 | the new id maps to an empty transcript with zero counters, and every other session is kept |
| ExpressRoutes.UploadChunk | server/_core/audioRoutes.ts:217-280 | an unknown or empty id and a missing file fail without change or call; otherwise Deepgram is asked only past the gate, a fragment is recorded with `RecordChunk`, no fragment leaves the store unchanged, the reply's counters are the session's, and a missing chunk number reads "0" |
| ExpressRoutes.StopSession | server/_core/audioRoutes.ts:283-311 | read-only; known sessions report their transcript and counters with `total_chunks` 0 |
| ExpressRoutes.SummaryDefaultsApply | server/_core/audioRoutes.ts:317-318 | a request without `summary_type` is answered exactly as one asking for `"medium"`, and one without `summary_language` exactly as one asking for `"en"`: same store, same reply, same LLM call |
| ExpressRoutes.TranslateDefaultApplies | server/_core/audioRoutes.ts:368 | a translate request without `target_language` is answered exactly as one asking for `"ja"` |
| ExpressRoutes.GenerateSummary | server/_core/audioRoutes.ts:314-362 | never changes the store; a trimmed transcript under 50 UTF-16 units fails before any LLM call; otherwise exactly one call with the Express summary prompt; it succeeds exactly for a known session of at least 50 trimmed units with a non-empty LLM answer, and fails with "Failed to generate summary" iff the LLM gave no text |
| ExpressRoutes.Translate | server/_core/audioRoutes.ts:365-402 | empty text fails without a call; otherwise one call with the translation prompt for the target (default `ja`) and the previous translation if non-empty; it succeeds exactly for non-empty text with a non-empty LLM answer, and fails with "Failed to translate text" iff the LLM gave no text |
| RpcRouter.StartSession | server/routers/audio.ts:183-191 | the new id maps to the empty record (empty transcript, zero counters, no summary or translation), and every other session is kept |
| RpcRouter.UploadChunk | server/routers/audio.ts:201-239 | an unknown id fails without change or call; otherwise Deepgram is asked only past the gate, a fragment is recorded with `RecordChunk`, no fragment leaves the store unchanged and answers an empty transcription with the old text |
| RpcRouter.StopSession | server/routers/audio.ts:243-256 | read-only; known sessions report their transcript and counters with `totalChunks` 0 |
| RpcRouter.GenerateSummary | server/routers/audio.ts:266-299 | failures leave the store unchanged; under 50 trimmed units fails before any LLM call; it succeeds exactly for a known session of at least 50 trimmed units with a non-empty answer, and that answer is stored with its type and language and nothing else changes |
| RpcRouter.Translate | server/routers/audio.ts:308-339 | failures leave the store unchanged; under 10 trimmed units fails before any LLM call; the prompt carries the stored translation; it succeeds exactly for a known session of at least 10 trimmed units with a non-empty answer, and that answer overwrites translation and language only |
| RpcRouter.TranslateCarriesContext | server/routers/audio.ts:308-332 | a known session at least 10 trimmed units long with a non-empty LLM answer translates successfully, and after that the next one on the session uses the continuity prompt ending with the translation just stored |
| RpcRouter.GetSession | server/routers/audio.ts:346-354 | the stored record, or "Session not found" exactly when the id is unknown |
| Uploads.UploadAll | server/routers/audio.ts:201-239 | a sequence of uploads only grows the store, and does nothing to an unknown session |
| Uploads.Next | server/routers/audio.ts:201-239 | one upload only grows the store |
| Uploads.Fragments | server/routers/audio.ts:53-56 | every fragment a sequence of chunks contributes is non-empty and trimmed, at most one per chunk |
| Uploads.UploadAllJoins | server/routers/audio.ts:213-223 | after any sequence of uploads, the transcript is the old transcript and the new fragments joined by single spaces; the calls count the fragments; the size counts only the chunks that produced text; no other field or session changes; Deepgram is asked once per chunk past the gate |
| Uploads.NextDescribes | server/routers/audio.ts:213-238 | one upload extends that description by the chunk's fragment, bytes and request |
| Uploads.UploadAllKeepsTrimmedPrefix | server/routers/audio.ts:214-217 | uploads never shorten the trimmed transcript |
| Uploads.SummaryStaysEligible | server/routers/audio.ts:272-275 | a session long enough for a summary never becomes "too short" again through uploads |
| Uploads.TranslationStaysEligible | server/routers/audio.ts:314-317 | a session long enough for a translation never becomes "too short" again through uploads |
| Uploads.HeardAsSaid | server/routers/audio.ts:53-56 | past the gate, an already trimmed non-empty transcript comes back unchanged |
| Uploads.TwoChunkSession | server/routers/audio.ts:213-231 | two chunks heard as two phrases in an empty session give the phrases joined by one space, two calls, and both byte counts |
| Agreement.RoutersAgreeOnUpload | server/_core/audioRoutes.ts:217-280 | for a non-empty id and an uploaded file, both routers change the store the same way, make the same calls and answer the same text |
| Agreement.RoutersAgreeOnStop | server/_core/audioRoutes.ts:283-311 | for a non-empty id, both routers report the same |
| Agreement.RoutersAgreeOnSummary | server/_core/audioRoutes.ts:314-362 | for a non-empty id, a named type other than "detailed" and any language other than ru or id (an empty one included), both routers send the same prompt and answer the same; only tRPC keeps the summary |

## Left out

- The Deepgram `fetch`, `invokeLLM` and JSON parsing are network calls and library code. Their outcomes are parameters: `ListenReply` and `Option<string>`.
- `uuidv4` is replaced by a fresh id that the caller passes in, with the precondition that it is not in the store.
- Base64 decoding (`Buffer.from`) and the multer file buffer are library code. An upload carries the decoded byte length instead.
- The database functions `createAudioSession`, `getAudioSessionBySessionId` and `updateAudioSession` are not shown; they are modelled as map insertion, lookup and field update. A freshly created record is assumed to hold an empty transcript and zero counters.
- Database `null` fields, which the code reads with `|| ""` and `|| 0`, are modelled as the empty string and 0.
- `getSessions`, user ownership (`ctx.user`) and authentication are left out. They belong to the transport and the database.
- Express, tRPC, zod and multer plumbing and the HTTP status codes are left out. Each error is modelled by its message only.
- In the Express `/api/upload-chunk`, `session_id` and `chunk_number` fall back to the query string; the other Express handlers read only the body. The model takes the one value that results.
- Lookups on keys inherited from `Object.prototype` are not modelled; every table is a plain map. This matters most for the Express `sessionData` table: a session id such as `"toString"` or `"__proto__"` passes its `!sessionData[sessionId]` test (`server/_core/audioRoutes.ts:222`, `:287`), so stop-session answers for it and upload-chunk writes onto the prototype. `ExpressRoutes.Known` rejects such an id. The same applies to the prompt and language tables.
- JavaScript strings may hold lone UTF-16 surrogates; a Dafny `string` cannot. The model covers well-formed text only.
- Concurrent uploads to the same session are not modelled; the model is sequential. In the tRPC router they can race on the read-modify-write: it reads the session (`server/routers/audio.ts:202`), awaits Deepgram (`:211`), then writes (`:219`), so one upload can overwrite another's fragment. The Express handler re-reads the session after its `await` and updates it without another `await` (`server/_core/audioRoutes.ts:244-251`), so there concurrency can only reorder fragments.
- Console logging is left out.
- A non-string `transcript` in a Deepgram answer, on which `trim` throws, is not modelled. The transcript is a string or absent.
- Counters are unbounded naturals, not JavaScript doubles. The overflow of a double is not modelled.
- The template prose is kept verbatim, but the lemmas speak only about its structure.
- `client/src/pages/Home.tsx` is browser UI and recording, and is not part of this model.
