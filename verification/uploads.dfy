/** A recording session as a sequence of chunk uploads to one session of
    the tRPC router, and what the sequence as a whole does to the store. */
module Uploads {
  import opened Options
  import opened Text
  import opened Providers
  import opened Sessions
  import RpcRouter

  /** One chunk as the browser sends it: its number, the size of its
      decoded audio, and what Deepgram answers for it. */
  datatype Chunk = Chunk(number: string, byteLength: nat, reply: ListenReply)

  /** The store and every provider call after a sequence of uploads. */
  datatype Run = Run(store: Store, calls: seq<ProviderCall>)

  /** One more upload of `chunk` to session `id` after `prev`. */
  function Next(prev: Run, id: string, apiKey: string, chunk: Chunk): (r: Run)
    ensures Grows(prev.store, r.store)
    ensures id !in prev.store ==> r == prev
  {
    var step := RpcRouter.UploadChunk(prev.store, id, chunk.number, chunk.byteLength, apiKey, chunk.reply);
    Run(step.store, prev.calls + step.calls)
  }

  /** Uploads `chunks` in order to session `id`. */
  function UploadAll(store: Store, id: string, apiKey: string, chunks: seq<Chunk>): (r: Run)
    ensures Grows(store, r.store)
    ensures id !in store ==> r == Run(store, [])
    decreases |chunks|
  {
    if chunks == [] then
      GrowsReflexive(store);
      Run(store, [])
    else
      var prev := UploadAll(store, id, apiKey, chunks[..|chunks| - 1]);
      var next := Next(prev, id, apiKey, chunks[|chunks| - 1]);
      GrowsTransitive(store, prev.store, next.store);
      next
  }

  /** The fragment Deepgram produces for `chunk`, if any. */
  function Fresh(apiKey: string, chunk: Chunk): seq<string> {
    match Transcribe(apiKey, chunk.byteLength, chunk.reply)
    case Some(fragment) => [fragment]
    case None => []
  }

  /** The bytes `chunk` adds to the accumulated size. */
  function Bytes(apiKey: string, chunk: Chunk): nat {
    if Transcribe(apiKey, chunk.byteLength, chunk.reply).Some? then chunk.byteLength else 0
  }

  /** The Deepgram request `chunk` causes, if it passes the gate. */
  function Request(apiKey: string, chunk: Chunk): seq<ProviderCall> {
    if CallsDeepgram(apiKey, chunk.byteLength) then [SpeechToText(chunk.byteLength)] else []
  }

  /** The fragments Deepgram produces for `chunks`, in order, leaving out
      the chunks it produced nothing for. */
  function Fragments(apiKey: string, chunks: seq<Chunk>): (fragments: seq<string>)
    ensures |fragments| <= |chunks|
    ensures forall i | 0 <= i < |fragments| :: fragments[i] != "" && Trimmed(fragments[i])
    decreases |chunks|
  {
    if chunks == [] then []
    else Fragments(apiKey, chunks[..|chunks| - 1]) + Fresh(apiKey, chunks[|chunks| - 1])
  }

  /** The bytes of the chunks Deepgram produced a fragment for. */
  function SuccessBytes(apiKey: string, chunks: seq<Chunk>): nat
    decreases |chunks|
  {
    if chunks == [] then 0
    else SuccessBytes(apiKey, chunks[..|chunks| - 1]) + Bytes(apiKey, chunks[|chunks| - 1])
  }

  /** The Deepgram requests `chunks` cause: one per chunk that passes the gate. */
  function Requests(apiKey: string, chunks: seq<Chunk>): seq<ProviderCall>
    decreases |chunks|
  {
    if chunks == [] then []
    else Requests(apiKey, chunks[..|chunks| - 1]) + Request(apiKey, chunks[|chunks| - 1])
  }

  /** The transcript before any upload, as a list of fragments. */
  function Prior(transcript: string): seq<string> {
    if transcript == "" then [] else [transcript]
  }

  /** `r` is session `id` of `store` after uploads that produced `fragments`
      from chunks of `bytes` bytes and caused `requests`: the transcript is
      the old transcript and the fragments joined by single spaces, every
      fragment counts one Deepgram call, and no other field and no other
      session differs. */
  predicate Describes(store: Store, id: string, r: Run, fragments: seq<string>, bytes: nat,
                      requests: seq<ProviderCall>)
  {
    && id in store && id in r.store
    && r.store == store[id := r.store[id]]
    && r.store[id] == store[id].(transcript := Join(Prior(store[id].transcript) + fragments),
                                 deepgramCalls := store[id].deepgramCalls + |fragments|,
                                 accumulatedSize := store[id].accumulatedSize + bytes)
    && r.calls == requests
  }

  /** A session after a sequence of uploads: its transcript is the old
      transcript and the new fragments joined by single spaces, it counts
      one Deepgram call and the bytes of every chunk that produced text, no
      other field and no other session changes, and Deepgram is asked once
      for every chunk that passes the gate. */
  lemma {:induction false} UploadAllJoins(store: Store, id: string, apiKey: string, chunks: seq<Chunk>)
    requires id in store
    ensures Describes(store, id, UploadAll(store, id, apiKey, chunks),
                      Fragments(apiKey, chunks), SuccessBytes(apiKey, chunks), Requests(apiKey, chunks))
    decreases |chunks|
  {
    if chunks == [] {
      UpdateSame(store, id);
    } else {
      var init := chunks[..|chunks| - 1];
      UploadAllJoins(store, id, apiKey, init);
      NextDescribes(store, id, apiKey, UploadAll(store, id, apiKey, init), chunks[|chunks| - 1],
                    Fragments(apiKey, init), SuccessBytes(apiKey, init), Requests(apiKey, init));
    }
  }

  /** One upload extends what a run describes by that chunk's fragment,
      bytes and request. */
  lemma NextDescribes(store: Store, id: string, apiKey: string, prev: Run, chunk: Chunk,
                      fragments: seq<string>, bytes: nat, requests: seq<ProviderCall>)
    requires Describes(store, id, prev, fragments, bytes, requests)
    requires NoneEmpty(fragments)
    ensures Describes(store, id, Next(prev, id, apiKey, chunk), fragments + Fresh(apiKey, chunk),
                      bytes + Bytes(apiKey, chunk), requests + Request(apiKey, chunk))
  {
    if Transcribe(apiKey, chunk.byteLength, chunk.reply).Some? {
      NextHeard(store, id, apiKey, prev, chunk, fragments, bytes, requests);
    } else {
      assert fragments + Fresh(apiKey, chunk) == fragments;
    }
  }

  lemma NextHeard(store: Store, id: string, apiKey: string, prev: Run, chunk: Chunk,
                  fragments: seq<string>, bytes: nat, requests: seq<ProviderCall>)
    requires Describes(store, id, prev, fragments, bytes, requests)
    requires NoneEmpty(fragments)
    requires Transcribe(apiKey, chunk.byteLength, chunk.reply).Some?
    ensures Describes(store, id, Next(prev, id, apiKey, chunk), fragments + Fresh(apiKey, chunk),
                      bytes + Bytes(apiKey, chunk), requests + Request(apiKey, chunk))
  {
    var fragment := Transcribe(apiKey, chunk.byteLength, chunk.reply).value;
    var next := Next(prev, id, apiKey, chunk);
    assert next.store == prev.store[id := RecordChunk(prev.store[id], fragment, chunk.byteLength)];
    UpdateTwice(store, id, prev.store[id], next.store[id]);
    JoinStep(store[id].transcript, fragments, fragment);
  }

  /** Appending a fragment to the joined transcript joins one more fragment. */
  lemma JoinStep(transcript: string, fragments: seq<string>, fragment: string)
    requires NoneEmpty(fragments)
    ensures AppendText(Join(Prior(transcript) + fragments), fragment)
         == Join(Prior(transcript) + (fragments + [fragment]))
  {
    var joined := Prior(transcript) + fragments;
    assert NoneEmpty(joined) by {
      assert forall i | 0 <= i < |joined| :: joined[i] != "" by {
        assert Prior(transcript) == [] || Prior(transcript)[0] != "";
      }
    }
    AppendTextJoins(joined, fragment);
    assert joined + [fragment] == Prior(transcript) + (fragments + [fragment]);
  }

  lemma UpdateSame(store: Store, id: string)
    requires id in store
    ensures store[id := store[id]] == store
  {
  }

  lemma UpdateTwice(store: Store, id: string, first: Session, second: Session)
    ensures store[id := first][id := second] == store[id := second]
  {
  }

  /** Uploads never shorten the trimmed transcript: the old trimmed
      transcript stays a prefix of the new one. So a session long enough for
      a summary (50) or a translation (10) stays long enough. */
  lemma {:induction false} UploadAllKeepsTrimmedPrefix(store: Store, id: string, apiKey: string, chunks: seq<Chunk>)
    requires id in store
    ensures var after := UploadAll(store, id, apiKey, chunks).store;
      && id in after
      && Trim(store[id].transcript) <= Trim(after[id].transcript)
      && TrimmedLength(store[id].transcript) <= TrimmedLength(after[id].transcript)
    decreases |chunks|
  {
    if chunks == [] {
      var t := Trim(store[id].transcript);
      assert t[..|t|] == t;
    } else {
      var init := chunks[..|chunks| - 1];
      UploadAllKeepsTrimmedPrefix(store, id, apiKey, init);
      var prev := UploadAll(store, id, apiKey, init);
      var next := Next(prev, id, apiKey, chunks[|chunks| - 1]);
      NextKeepsTrimmedPrefix(prev, id, apiKey, chunks[|chunks| - 1]);
      PrefixTransitive(Trim(store[id].transcript), Trim(prev.store[id].transcript), Trim(next.store[id].transcript));
    }
  }

  /** One upload never shortens the trimmed transcript. */
  lemma NextKeepsTrimmedPrefix(prev: Run, id: string, apiKey: string, chunk: Chunk)
    requires id in prev.store
    ensures var after := Next(prev, id, apiKey, chunk).store;
      && id in after
      && Trim(prev.store[id].transcript) <= Trim(after[id].transcript)
      && TrimmedLength(prev.store[id].transcript) <= TrimmedLength(after[id].transcript)
  {
    var before := prev.store[id].transcript;
    match Transcribe(apiKey, chunk.byteLength, chunk.reply)
    case None =>
      assert Trim(before)[..|Trim(before)|] == Trim(before);
    case Some(fragment) =>
      AppendTextKeepsTrimmedPrefix(before, fragment);
  }

  /** A session long enough for a summary stays long enough whatever is
      uploaded to it: uploads never bring back the "too short" answer. */
  lemma SummaryStaysEligible(store: Store, id: string, apiKey: string, chunks: seq<Chunk>,
                             summaryType: string, language: string, completion: Option<string>)
    requires id in store && TrimmedLength(store[id].transcript) >= SummaryMinLength
    ensures RpcRouter.GenerateSummary(UploadAll(store, id, apiKey, chunks).store, id, summaryType, language,
                                      completion).result != Fail(SummaryTranscriptTooShort)
  {
    UploadAllKeepsTrimmedPrefix(store, id, apiKey, chunks);
  }

  /** Likewise for a translation. */
  lemma TranslationStaysEligible(store: Store, id: string, apiKey: string, chunks: seq<Chunk>,
                                 target: string, completion: Option<string>)
    requires id in store && TrimmedLength(store[id].transcript) >= TranslationMinLength
    ensures RpcRouter.Translate(UploadAll(store, id, apiKey, chunks).store, id, target, completion).result
              != Fail(TranslationTranscriptTooShort)
  {
    UploadAllKeepsTrimmedPrefix(store, id, apiKey, chunks);
  }

  /** Deepgram's reply carrying `transcript` as the first alternative. */
  function Heard(transcript: string): ListenReply {
    Http(200, Listen(Some([Channel(Some([Alternative(Some(transcript))]))])))
  }

  /** Deepgram's reply is taken as it is when it is already trimmed. */
  lemma HeardAsSaid(apiKey: string, byteLength: nat, transcript: string)
    requires CallsDeepgram(apiKey, byteLength)
    requires transcript != "" && Trimmed(transcript)
    ensures Transcribe(apiKey, byteLength, Heard(transcript)) == Some(transcript)
  {
    assert transcript == [] + transcript + [];
    TrimUnique(transcript, [], transcript, []);
  }

  /** Two chunks uploaded in turn: their fragments, bytes and requests. */
  lemma TwoChunks(apiKey: string, first: Chunk, second: Chunk)
    ensures Fragments(apiKey, [first, second]) == Fresh(apiKey, first) + Fresh(apiKey, second)
    ensures SuccessBytes(apiKey, [first, second]) == Bytes(apiKey, first) + Bytes(apiKey, second)
    ensures Requests(apiKey, [first, second]) == Request(apiKey, first) + Request(apiKey, second)
  {
    assert [first, second][..1] == [first];
    assert [first][..0] == [];
    assert Fragments(apiKey, [first]) == [] + Fresh(apiKey, first) == Fresh(apiKey, first);
    assert Requests(apiKey, [first]) == [] + Request(apiKey, first) == Request(apiKey, first);
    assert SuccessBytes(apiKey, [first]) == Bytes(apiKey, first);
  }

  /** Two chunks that pass the gate, heard as two trimmed phrases: both
      phrases are fragments, both chunks count, both are requests. */
  lemma TwoHeard(apiKey: string, first: string, second: string, n: nat, m: nat)
    requires CallsDeepgram(apiKey, n) && CallsDeepgram(apiKey, m)
    requires first != "" && Trimmed(first) && second != "" && Trimmed(second)
    ensures var chunks := [Chunk("0", n, Heard(first)), Chunk("1", m, Heard(second))];
      && Fragments(apiKey, chunks) == [first, second]
      && SuccessBytes(apiKey, chunks) == n + m
      && Requests(apiKey, chunks) == [SpeechToText(n), SpeechToText(m)]
  {
    HeardAsSaid(apiKey, n, first);
    HeardAsSaid(apiKey, m, second);
    TwoChunks(apiKey, Chunk("0", n, Heard(first)), Chunk("1", m, Heard(second)));
  }

  /** Two chunks that pass the gate, heard as two trimmed phrases, in a
      session that has heard nothing yet: the transcript is the phrases
      joined by a space, with two Deepgram calls and the bytes of both
      chunks. */
  lemma TwoChunkSession(store: Store, id: string, apiKey: string, first: string, second: string, n: nat, m: nat)
    requires id in store && store[id].transcript == ""
    requires CallsDeepgram(apiKey, n) && CallsDeepgram(apiKey, m)
    requires first != "" && Trimmed(first) && second != "" && Trimmed(second)
    ensures var r := UploadAll(store, id, apiKey, [Chunk("0", n, Heard(first)), Chunk("1", m, Heard(second))]);
      && id in r.store
      && r.store[id].transcript == first + " " + second
      && r.store[id].deepgramCalls == store[id].deepgramCalls + 2
      && r.store[id].accumulatedSize == store[id].accumulatedSize + n + m
      && r.calls == [SpeechToText(n), SpeechToText(m)]
  {
    TwoHeard(apiKey, first, second, n, m);
    UploadAllJoins(store, id, apiKey, [Chunk("0", n, Heard(first)), Chunk("1", m, Heard(second))]);
    assert [] + [first, second] == [first, second];
    assert Join([first, second]) == first + " " + second by {
      assert [first, second][1..] == [second];
    }
  }
}
